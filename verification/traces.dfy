/** Sequences of calls on one service object, in call order, and what the
    stored list holds after them. */
module Traces {
  import opened Expenses
  import opened ListHeap
  import opened MockDataService

  /** One public call, with the clock reading it sees. */
  datatype Call = Add(e: Expense, now: Date) | Get(now: Date)

  function Step(v: Variant, s: Service, c: Call): (s': Service)
    requires Valid(s)
    ensures Valid(s') && s'.expenses.Some?
  {
    match c
    case Add(e, now) => AddExpense(v, s, e, now)
    case Get(now) => GetExpenses(v, s, now).service
  }

  /** The state after performing `calls` in order, starting from `s`. */
  function Run(v: Variant, s: Service, calls: seq<Call>): (s': Service)
    requires Valid(s)
    ensures Valid(s')
    ensures calls != [] ==> s'.expenses.Some?
    decreases |calls|
  {
    if calls == [] then s else Run(v, Step(v, s, calls[0]), calls[1..])
  }

  /** The expenses passed to the Add calls of `calls`, in call order. */
  function Added(calls: seq<Call>): seq<Expense>
    decreases |calls|
  {
    if calls == [] then []
    else (if calls[0].Add? then [calls[0].e] else []) + Added(calls[1..])
  }

  /** The clock reading of the first call, or `now` when there is none. */
  function FirstClock(calls: seq<Call>, now: Date): Date
  {
    if calls == [] then now else calls[0].now
  }

  /** Latching, once seeded: any run of calls keeps the flag set, keeps the
      field pointing at the same list object, and only appends to it, the
      expenses of the Add calls in call order. */
  lemma {:induction false} LatchingRunAppends(v: Variant, s: Service, calls: seq<Call>)
    requires Valid(s) && v.setsFlag && s.isInitialized
    ensures var s' := Run(v, s, calls);
      && s'.isInitialized
      && s'.expenses == s.expenses
      && Stored(s') == Stored(s) + Added(calls)
    decreases |calls|
  {
    if calls != [] {
      var s1 := Step(v, s, calls[0]);
      LatchingRunAppends(v, s1, calls[1..]);
      assert Stored(s1) == Stored(s) + (if calls[0].Add? then [calls[0].e] else []);
    }
  }

  /** Latching, from a new object: after any calls, `GetExpensesAsync`
      returns the seeds (dated by the first call's clock) followed by every
      added expense in call order. */
  lemma LatchingGetAfterCalls(v: Variant, calls: seq<Call>, now: Date)
    requires v.setsFlag
    ensures Returned(GetExpenses(v, Run(v, Fresh, calls), now))
         == Seeds(v, FirstClock(calls, now)) + Added(calls)
  {
    var last := Run(v, Fresh, calls);
    if calls == [] {
      assert Added(calls) == [];
    } else {
      var first := Step(v, Fresh, calls[0]);
      LatchingFirstCall(v, calls[0]);
      assert last == Run(v, first, calls[1..]);
      LatchingRunAppends(v, first, calls[1..]);
      assert GetExpenses(v, last, now).service == last;
    }
  }

  /** Latching, on a new object: the first call seeds, keeps the flag set,
      and stores the seeds followed by its expense when it is an add. */
  lemma LatchingFirstCall(v: Variant, c: Call)
    requires v.setsFlag
    ensures var s := Step(v, Fresh, c);
      && s.isInitialized
      && Stored(s) == Seeds(v, c.now) + Added([c])
  {
    assert Added([c]) == (if c.Add? then [c.e] else []) + Added([]);
  }

  /** The company, description and amount of the seeds do not depend on the
      clock reading they were seeded with. */
  lemma SeedEntriesIgnoreClock(v: Variant, t1: Date, t2: Date)
    ensures Entries(Seeds(v, t1)) == Entries(Seeds(v, t2))
  {
  }

  /** Latching, from a new object, clock aside: after any calls,
      `GetExpensesAsync` returns the seed entries followed by the entries of
      the added expenses in call order, whatever the clock read. */
  lemma LatchingEntriesAfterCalls(v: Variant, calls: seq<Call>, now: Date, t: Date)
    requires v.setsFlag
    ensures Entries(Returned(GetExpenses(v, Run(v, Fresh, calls), now)))
         == Entries(Seeds(v, t)) + Entries(Added(calls))
  {
    LatchingGetAfterCalls(v, calls, now);
    EntriesAppend(Seeds(v, FirstClock(calls, now)), Added(calls));
    SeedEntriesIgnoreClock(v, FirstClock(calls, now), t);
  }

  /** The list a reseeding variant holds right after the call `c`. */
  function AfterLast(v: Variant, c: Call): seq<Expense>
  {
    match c
    case Add(e, now) => Seeds(v, now) + [e]
    case Get(now) => Seeds(v, now)
  }

  /** Reseeding, from any unseeded state: the flag stays false through every
      run, and after a non-empty run the stored list depends only on the last
      call: its seeds, plus its expense when it was an add. */
  lemma {:induction false} ReseedingRunForgets(v: Variant, s: Service, calls: seq<Call>)
    requires Valid(s) && !v.setsFlag && !s.isInitialized
    ensures var s' := Run(v, s, calls);
      && !s'.isInitialized
      && (calls != [] ==> Stored(s') == AfterLast(v, calls[|calls| - 1]))
    decreases |calls|
  {
    if calls != [] {
      var s1 := Step(v, s, calls[0]);
      ReseedingRunForgets(v, s1, calls[1..]);
      if |calls| > 1 {
        assert calls[1..][|calls[1..]| - 1] == calls[|calls| - 1];
      }
    }
  }

  /** Reseeding, from a new object: whatever calls came before,
      `GetExpensesAsync` returns the seeds and nothing else. */
  lemma ReseedingGetAfterCalls(v: Variant, calls: seq<Call>, now: Date)
    requires !v.setsFlag
    ensures Returned(GetExpenses(v, Run(v, Fresh, calls), now)) == Seeds(v, now)
  {
    ReseedingRunForgets(v, Fresh, calls);
  }

  /** As written, the copy that never sets its flag loses an added expense:
      add one to a new object, list, and only the two seeds come back. */
  lemma ReseedsEveryCallLosesAdd(e: Expense, t1: Date, t2: Date)
    ensures var got := Returned(GetExpenses(ReseedsEveryCall, Run(ReseedsEveryCall, Fresh, [Add(e, t1)]), t2));
      got == Seeds(ReseedsEveryCall, t2) && |got| == 2
  {
    ReseedingGetAfterCalls(ReseedsEveryCall, [Add(e, t1)], t2);
  }

  /** With the flag assignment put back, the same calls return the two seeds
      followed by the added expense: three records, the last one `e`. */
  lemma ReseedsCorrectedKeepsAdd(e: Expense, t1: Date, t2: Date)
    ensures var got := Returned(GetExpenses(ReseedsCorrected, Run(ReseedsCorrected, Fresh, [Add(e, t1)]), t2));
      got == Seeds(ReseedsCorrected, t1) + [e] && |got| == 3 && got[2] == e
  {
    LatchingGetAfterCalls(ReseedsCorrected, [Add(e, t1)], t2);
    assert Added([Add(e, t1)]) == [e];
  }

  /** A caller that adds `es` one by one to a new service and then lists the
      expenses. A latching variant yields the seeds followed by `es`; a
      reseeding one yields the seeds alone. */
  method ListAfterAdds(v: Variant, es: seq<Expense>, now: Date) returns (items: seq<Expense>)
    ensures v.setsFlag ==> items == Seeds(v, now) + es
    ensures !v.setsFlag ==> items == Seeds(v, now)
  {
    var s := Fresh;
    var i := 0;
    while i < |es|
      invariant 0 <= i <= |es|
      invariant Valid(s)
      invariant i == 0 ==> s == Fresh
      invariant i > 0 && v.setsFlag ==> s.isInitialized && Stored(s) == Seeds(v, now) + es[..i]
      invariant !v.setsFlag ==> !s.isInitialized
    {
      s := AddExpense(v, s, es[i], now);
      i := i + 1;
    }
    var f := GetExpenses(v, s, now);
    items := Returned(f);
    assert es[..|es|] == es;
  }
}

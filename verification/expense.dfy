/** The expense record and the small value types it is built from. */
module Expenses {

  /** A value that may be absent; stands in for a C# reference that may be null. */
  datatype Option<+T> = None | Some(value: T)

  /** A point in time, as a tick count. */
  datatype Date = Date(ticks: int)

  /** Ticks in one day (one tick is 100 nanoseconds). */
  const TicksPerDay: int := 864_000_000_000

  /** Shifts a date by a whole number of days, possibly negative. */
  function AddDays(d: Date, days: int): (r: Date)
    ensures days < 0 ==> r.ticks < d.ticks
    ensures days == 0 ==> r == d
    ensures days > 0 ==> r.ticks > d.ticks
  {
    Date(d.ticks + days * TicksPerDay)
  }

  /** One expense. Every text field is a C# string and so may be null
      (`None`), for instance when a form field was never edited. The amount is
      free text, never a number; the receipt is the URI of an uploaded
      picture. */
  datatype Expense = Expense(
    company: Option<string>,
    description: Option<string>,
    amount: Option<string>,
    date: Date,
    receipt: Option<string>)

  /** The fields of an expense that do not depend on the clock. */
  datatype Entry = Entry(company: Option<string>, description: Option<string>, amount: Option<string>)

  function EntryOf(e: Expense): Entry
  {
    Entry(e.company, e.description, e.amount)
  }

  /** The clock-independent view of a list of expenses: the entry at each
      position is that of the expense at the same position. */
  function Entries(xs: seq<Expense>): (r: seq<Entry>)
    ensures |r| == |xs|
    ensures forall i :: 0 <= i < |xs| ==> r[i] == EntryOf(xs[i])
    decreases |xs|
  {
    if xs == [] then [] else [EntryOf(xs[0])] + Entries(xs[1..])
  }

  /** Taking entries commutes with concatenation. */
  lemma EntriesAppend(a: seq<Expense>, b: seq<Expense>)
    ensures Entries(a + b) == Entries(a) + Entries(b)
  {
  }

  /** An expense built by an object initialiser that sets company,
      description, amount and date; the receipt keeps its default, null. */
  function NewExpense(company: string, description: string, amount: string, date: Date): (e: Expense)
    ensures e.receipt == None
  {
    Expense(Some(company), Some(description), Some(amount), date, None)
  }
}

/** A heap of list objects. A C# `List<Expense>` is a reference: two fields
    can hold the same list, and `Add` on it is seen through both. The heap
    maps each allocated reference to the list's current contents. */
module ListHeap {
  import opened Expenses

  /** A reference to a list object. */
  type Ref = nat

  /** `next` is the reference the next allocation hands out. */
  datatype Heap = Heap(lists: map<Ref, seq<Expense>>, next: Ref)

  /** Every allocated reference lies below the allocation counter. */
  ghost predicate WellFormed(h: Heap)
  {
    forall r :: r in h.lists ==> r < h.next
  }

  /** The heap before anything is allocated. */
  const Empty: Heap := Heap(map[], 0)

  /** The outcome of `new List<Expense> { ... }`: the new heap and the new reference. */
  datatype Allocated = Allocated(heap: Heap, ref: Ref)

  /** Allocates a new list object holding `items`. The reference is fresh and
      every list allocated before keeps its contents. */
  function Alloc(h: Heap, items: seq<Expense>): (a: Allocated)
    requires WellFormed(h)
    ensures WellFormed(a.heap)
    ensures a.ref !in h.lists
    ensures a.ref in a.heap.lists && a.heap.lists[a.ref] == items
    ensures a.heap.lists.Keys == h.lists.Keys + {a.ref}
    ensures forall r :: r in h.lists ==> a.heap.lists[r] == h.lists[r]
  {
    Allocated(Heap(h.lists[h.next := items], h.next + 1), h.next)
  }

  /** `List<T>.Add`: appends `e` to the list `r`. The list grows by one with
      `e` last, its earlier entries stay in place, and no other list changes. */
  function Append(h: Heap, r: Ref, e: Expense): (h': Heap)
    requires WellFormed(h) && r in h.lists
    ensures WellFormed(h')
    ensures h'.lists.Keys == h.lists.Keys
    ensures |h'.lists[r]| == |h.lists[r]| + 1
    ensures h'.lists[r][|h.lists[r]|] == e
    ensures forall i :: 0 <= i < |h.lists[r]| ==> h'.lists[r][i] == h.lists[r][i]
    ensures forall q :: q in h.lists && q != r ==> h'.lists[q] == h.lists[q]
  {
    Heap(h.lists[r := h.lists[r] + [e]], h.next)
  }
}

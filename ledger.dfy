/** The fill ledger both orders keep: running totals of the retired child
    orders ("previous" accumulators) beside the ordered history of those
    children, and the idempotent tag list recording why a transition fired. */
module Ledgers {
  import opened Trading

  datatype Ledger = Ledger(
    prevFilled: real,
    prevFilledStartAmount: real,
    prevFilledDestAmount: real,
    history: seq<ChildOrder>)

  const EmptyLedger: Ledger := Ledger(0.0, 0.0, 0.0, [])

  function SumFilled(h: seq<ChildOrder>): real
  {
    if h == [] then 0.0 else h[0].filled + SumFilled(h[1..])
  }

  function SumFilledStart(h: seq<ChildOrder>): real
  {
    if h == [] then 0.0 else h[0].filledStartAmount + SumFilledStart(h[1..])
  }

  function SumFilledDest(h: seq<ChildOrder>): real
  {
    if h == [] then 0.0 else h[0].filledDestAmount + SumFilledDest(h[1..])
  }

  /** Retiring one more child adds exactly its fills to each sum. */
  lemma {:induction false} SumsAppend(h: seq<ChildOrder>, c: ChildOrder)
    ensures SumFilled(h + [c]) == SumFilled(h) + c.filled
    ensures SumFilledStart(h + [c]) == SumFilledStart(h) + c.filledStartAmount
    ensures SumFilledDest(h + [c]) == SumFilledDest(h) + c.filledDestAmount
  {
    if h == [] {
      assert [c][1..] == [];
    } else {
      assert (h + [c])[1..] == h[1..] + [c];
      SumsAppend(h[1..], c);
    }
  }

  /** The "previous" accumulators are the sums over the history. */
  predicate Consistent(l: Ledger)
  {
    l.prevFilled == SumFilled(l.history) &&
    l.prevFilledStartAmount == SumFilledStart(l.history) &&
    l.prevFilledDestAmount == SumFilledDest(l.history)
  }

  /** The retirement step: the active child's fills fold into the
      accumulators exactly once and the child joins the end of the history. */
  function CloseActive(l: Ledger, c: ChildOrder): (r: Ledger)
    ensures r.history == l.history + [c]
    ensures r.prevFilled == l.prevFilled + c.filled
    ensures r.prevFilledStartAmount == l.prevFilledStartAmount + c.filledStartAmount
    ensures r.prevFilledDestAmount == l.prevFilledDestAmount + c.filledDestAmount
    ensures Consistent(l) ==> Consistent(r)
  {
    SumsAppend(l.history, c);
    Ledger(l.prevFilled + c.filled, l.prevFilledStartAmount + c.filledStartAmount,
           l.prevFilledDestAmount + c.filledDestAmount, l.history + [c])
  }

  /** Fill of the active child, zero when there is none. */
  function ActiveFilled(a: Option<ChildOrder>): real
  {
    if a.Some? then a.value.filled else 0.0
  }

  function ActiveFilledStart(a: Option<ChildOrder>): real
  {
    if a.Some? then a.value.filledStartAmount else 0.0
  }

  function ActiveFilledDest(a: Option<ChildOrder>): real
  {
    if a.Some? then a.value.filledDestAmount else 0.0
  }

  /** The governing order's totals are the retired children's fills plus the
      active child's live fill. */
  predicate Accounted(l: Ledger, active: Option<ChildOrder>,
                      filled: real, filledStartAmount: real, filledDestAmount: real)
  {
    Consistent(l) &&
    filled == SumFilled(l.history) + ActiveFilled(active) &&
    filledStartAmount == SumFilledStart(l.history) + ActiveFilledStart(active) &&
    filledDestAmount == SumFilledDest(l.history) + ActiveFilledDest(active)
  }

  predicate NoDuplicates(tags: seq<string>)
  {
    forall i, j | 0 <= i < j < |tags| :: tags[i] != tags[j]
  }

  /** Appends a tag unless it is already there. */
  function AddTag(tags: seq<string>, t: string): (r: seq<string>)
    ensures t in r
    ensures forall x :: x in r <==> x in tags || x == t
    ensures t in tags ==> r == tags
    ensures tags <= r && |r| <= |tags| + 1
    ensures NoDuplicates(tags) ==> NoDuplicates(r)
  {
    if t in tags then tags else tags + [t]
  }
}

/** The pager under the post list: the page-size select and the previous and
    next buttons, each of which patches the search options. */
module Pagination {
  import opened Wrappers
  import opened JsNumber
  import opened PostSearch

  /** `Math.max(0, skip - limit)`, the offset "previous" moves to. */
  function PreviousSkip(o: SearchOptions): (s: Num)
    ensures s.Int? <==> o.skip.Int? && o.limit.Int?
    ensures s.Int? ==> s.value >= 0
    ensures s.Int? ==> s.value == (if o.skip.value - o.limit.value < 0 then 0 else o.skip.value - o.limit.value)
  {
    MaxZero(Sub(o.skip, o.limit))
  }

  /** `skip === 0`: NaN is not 0, so a NaN offset leaves the button enabled. */
  predicate PreviousDisabled(o: SearchOptions)
  {
    o.skip == Int(0)
  }

  /** `skip + limit`, the offset "next" moves to. */
  function NextSkip(o: SearchOptions): (s: Num)
    ensures s.Int? <==> o.skip.Int? && o.limit.Int?
    ensures s.Int? ==> s.value == o.skip.value + o.limit.value
  {
    Add(o.skip, o.limit)
  }

  /** `skip + limit >= total`: every comparison with NaN is false, so a NaN
      offset leaves the button enabled. */
  predicate NextDisabled(o: SearchOptions, total: int)
  {
    AtLeast(NextSkip(o), total)
  }

  /** The patch the "previous" button applies. */
  function PreviousPage(o: SearchOptions): (p: Patch)
    ensures Merge(o, p) == o.(skip := PreviousSkip(o))
  {
    NoFields.(skip := Some(PreviousSkip(o)))
  }

  /** The patch the "next" button applies. */
  function NextPage(o: SearchOptions): (p: Patch)
    ensures Merge(o, p) == o.(skip := NextSkip(o))
  {
    NoFields.(skip := Some(NextSkip(o)))
  }

  /** The page sizes the select offers. */
  const LimitChoices: seq<string> := ["10", "20", "30"]

  /** `Number(value)` for a value of the select. */
  function LimitValue(value: string): (n: int)
    requires value in LimitChoices
    ensures n == 10 || n == 20 || n == 30
    ensures ToString(n) == value
  {
    assert ToString(10) == "10" && ToString(20) == "20" && ToString(30) == "30";
    if value == "10" then 10 else if value == "20" then 20 else 30
  }

  /** The patch choosing a page size applies. */
  function ChooseLimit(value: string): (p: Patch)
    requires value in LimitChoices
    ensures forall o :: Merge(o, p) == o.(limit := Int(LimitValue(value)))
  {
    NoFields.(limit := Some(Int(LimitValue(value))))
  }

  /** With "next" enabled, the new offset is still inside the list. */
  lemma NextStaysInRange(o: SearchOptions, total: int)
    requires !NextDisabled(o, total)
    requires o.skip.Int? && o.limit.Int?
    ensures NextSkip(o).Int? && NextSkip(o).value < total
  {
  }

  /** On an offset that is a number, "previous" is disabled exactly when it
      would leave the offset where it is; with a positive page size it moves
      the offset back otherwise. */
  lemma PreviousDisabledAtStart(o: SearchOptions)
    requires o.skip.Int? && o.skip.value >= 0 && o.limit.Int? && o.limit.value > 0
    ensures PreviousDisabled(o) <==> PreviousSkip(o) == o.skip
    ensures !PreviousDisabled(o) ==> PreviousSkip(o).value < o.skip.value
  {
  }

  /** On an in-range offset, "next" is disabled exactly when its offset would
      reach past the last post. */
  lemma NextDisabledAtEnd(o: SearchOptions, total: int)
    requires o.skip.Int? && o.limit.Int?
    ensures NextDisabled(o, total) <==> o.skip.value + o.limit.value >= total
  {
  }

  /** "Previous" undoes "next" from any non-negative offset, and "next" undoes
      "previous" when a whole page lies before the offset. */
  lemma PreviousUndoesNext(o: SearchOptions)
    requires o.skip.Int? && o.skip.value >= 0 && o.limit.Int? && o.limit.value >= 0
    ensures PreviousSkip(o.(skip := NextSkip(o))) == o.skip
    ensures o.skip.value >= o.limit.value ==> NextSkip(o.(skip := PreviousSkip(o))) == o.skip
  {
  }

  /** Once the offset is NaN, neither button can bring it back to a number. */
  lemma NaNOffsetSticks(o: SearchOptions, total: int)
    requires o.skip.NaN?
    ensures PreviousSkip(o).NaN? && NextSkip(o).NaN?
    ensures !PreviousDisabled(o) && !NextDisabled(o, total)
  {
  }
}

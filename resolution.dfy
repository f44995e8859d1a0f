/** Conflict-resolution strategies (item_synchronizer/resolution_strategy.py). */
module Resolution {
  import opened Wrappers

  /** `ResolutionResult.ID`: which side a resolution picked. */
  datatype ResultId = A | B | Mix

  /** The chosen side and its item; `None` means "resolved to deleted". */
  datatype ResolutionResult<Item> = ResolutionResult(id: ResultId, item: Option<Item>)

  /**
   * A resolution strategy. The four built-in classes are tagged variants, the
   * recency ones carrying their date getters (dates are integers here);
   * `Custom` stands for a user subclass of `ResolutionStrategy`, with its own
   * `resolve` and `can_resolve`.
   */
  datatype Strategy<!Item> =
    | AlwaysFirst
    | AlwaysSecond
    | MostRecent(dateA: Item -> int, dateB: Item -> int)
    | LeastRecent(dateA: Item -> int, dateB: Item -> int)
    | Custom(decide: (Option<Item>, Option<Item>) -> ResolutionResult<Item>, ready: bool)
  {
    predicate BuiltIn() {
      !Custom?
    }

    /** `can_resolve`: the base class answers true and no built-in overrides it. */
    function CanResolve(): (r: bool)
      ensures BuiltIn() ==> r
    {
      if Custom? then ready else true
    }

    /**
     * `resolve(item_A, item_B)`. No built-in strategy answers `Mix`, and the
     * item of a built-in answer is the input of the side it names.
     */
    function Resolve(itemA: Option<Item>, itemB: Option<Item>): (r: ResolutionResult<Item>)
      ensures BuiltIn() ==> r.id != Mix && r.item == (if r.id == A then itemA else itemB)
      ensures AlwaysFirst? ==> r.id == A
      ensures AlwaysSecond? ==> r.id == B
    {
      match this
      case AlwaysFirst => ResolutionResult(A, itemA)
      case AlwaysSecond => ResolutionResult(B, itemB)
      case MostRecent(dA, dB) => RecencyResolve(dA, dB, (d1: int, d2: int) => d1 >= d2, itemA, itemB)
      case LeastRecent(dA, dB) => RecencyResolve(dA, dB, (d1: int, d2: int) => d1 <= d2, itemA, itemB)
      case Custom(f, _) => f(itemA, itemB)
    }
  }

  /**
   * `_RecencyRS.resolve`: both absent gives A (with nothing); exactly one
   * absent gives the present side whatever the dates; both present gives A
   * exactly when `compare(date_A, date_B)` holds.
   */
  function RecencyResolve<Item>(dateA: Item -> int, dateB: Item -> int, compare: (int, int) -> bool,
                                itemA: Option<Item>, itemB: Option<Item>): (r: ResolutionResult<Item>)
    ensures r.id != Mix && r.item == (if r.id == A then itemA else itemB)
    ensures itemA.None? && itemB.None? ==> r.id == A
    ensures itemA.None? && itemB.Some? ==> r.id == B
    ensures itemA.Some? && itemB.None? ==> r.id == A
    ensures itemA.Some? && itemB.Some? ==>
      (r.id == A <==> compare(dateA(itemA.value), dateB(itemB.value)))
  {
    if itemA.None? && itemB.None? then ResolutionResult(A, itemA)
    else if itemA.None? then ResolutionResult(B, itemB)
    else if itemB.None? then ResolutionResult(A, itemA)
    else if compare(dateA(itemA.value), dateB(itemB.value)) then ResolutionResult(A, itemA)
    else ResolutionResult(B, itemB)
  }

  /** With two present items of distinct dates, MostRecent keeps the later one and LeastRecent the earlier one. */
  lemma RecencyPicksByDate<Item>(dateA: Item -> int, dateB: Item -> int, x: Item, y: Item)
    requires dateA(x) != dateB(y)
    ensures var r := MostRecent(dateA, dateB).Resolve(Some(x), Some(y));
      r.item == if dateA(x) > dateB(y) then Some(x) else Some(y)
    ensures var r := LeastRecent(dateA, dateB).Resolve(Some(x), Some(y));
      r.item == if dateA(x) < dateB(y) then Some(x) else Some(y)
  {
  }

  /** Equal dates favour side A under both recency strategies. */
  lemma RecencyTieFavoursA<Item>(dateA: Item -> int, dateB: Item -> int, x: Item, y: Item)
    requires dateA(x) == dateB(y)
    ensures MostRecent(dateA, dateB).Resolve(Some(x), Some(y)) == ResolutionResult(A, Some(x))
    ensures LeastRecent(dateA, dateB).Resolve(Some(x), Some(y)) == ResolutionResult(A, Some(x))
  {
  }

  /** Under a recency strategy a deletion never overrides a present item, and two deletions resolve to A. */
  lemma RecencyPresenceWins<Item>(s: Strategy<Item>, x: Item)
    requires s.MostRecent? || s.LeastRecent?
    ensures s.Resolve(None, Some(x)) == ResolutionResult(B, Some(x))
    ensures s.Resolve(Some(x), None) == ResolutionResult(A, Some(x))
    ensures s.Resolve(None, None) == ResolutionResult(A, None)
  {
  }

  /** AlwaysFirst and AlwaysSecond answer their own side for every input, absent ones included. */
  lemma FixedSideStrategies<Item>(itemA: Option<Item>, itemB: Option<Item>)
    ensures AlwaysFirst.Resolve(itemA, itemB) == ResolutionResult(A, itemA)
    ensures AlwaysSecond.Resolve(itemA, itemB) == ResolutionResult(B, itemB)
  {
  }
}

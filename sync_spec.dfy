/**
 * What one run of `Synchronizer.sync` does, as functions of the state before
 * it (item_synchronizer/synchronizer.py:99-275). Every loop of the source runs
 * over a set in an unspecified order, so each phase is a fold `Run` over an
 * enumeration `order` of that set; the class in module Synchronizer is proved
 * to end in `Run(..., order)` for the order it actually took.
 */
module SyncSpec {
  import opened Types
  import opened Wrappers
  import opened Bimaps
  import opened Helpers
  import opened Resolution

  /** What a converter callback did: answered an item, answered `None`, or raised. */
  datatype Conversion<Item> = Produced(item: Item) | Declined | ConverterFailed

  /**
   * The callbacks given to the constructor. An inserter answers the
   * identifier of the newly added item, under which it stores the item, or
   * `None` when it raised. Updaters, deleters and getters are the store
   * operations of the test harness and are not parameters.
   */
  datatype Config<!Item> = Config(
    convertToA: Item -> Conversion<Item>,
    convertToB: Item -> Conversion<Item>,
    insertToA: Item -> Option<ID>,
    insertToB: Item -> Option<ID>,
    strategy: Strategy<Item>,
    catchExceptions: bool)
  {
    function Converter(to: Side): Item -> Conversion<Item> {
      if to == SideA then convertToA else convertToB
    }

    /**
     * The converter as `_decide_catch_exc` wraps it (lines 70-71): a caught
     * failure answers `None`, one not caught ends the run.
     */
    function Convert(to: Side, x: Item): (r: Result<Option<Item>, Error>)
      ensures r.Failure? <==> Converter(to)(x).ConverterFailed? && !catchExceptions
      ensures r.Failure? ==> r.error == ConvertRaised
      ensures r == Success(None) <==> Converter(to)(x).Declined? || (Converter(to)(x).ConverterFailed? && catchExceptions)
      ensures r.Success? && r.value.Some? <==> Converter(to)(x).Produced?
      ensures Converter(to)(x).Produced? ==> r == Success(Some(Converter(to)(x).item))
    {
      match Converter(to)(x)
      case Produced(y) => Success(Some(y))
      case Declined => Success(None)
      case ConverterFailed => if catchExceptions then Success(None) else Failure(ConvertRaised)
    }

    function Inserter(to: Side): Item -> Option<ID> {
      if to == SideA then insertToA else insertToB
    }
  }

  /** Both stores, the correspondence and both statistics counters. */
  datatype World<Item> = World(storeA: map<ID, Item>, storeB: map<ID, Item>, ids: Bimap,
                               statsA: Counters, statsB: Counters)
  {
    function Store(side: Side): map<ID, Item> {
      if side == SideA then storeA else storeB
    }

    function Stats(side: Side): Counters {
      if side == SideA then statsA else statsB
    }

    function WithStore(side: Side, s: map<ID, Item>): (r: World<Item>)
      ensures r.Store(side) == s && r.Store(side.Other()) == Store(side.Other())
      ensures r.ids == ids && r.statsA == statsA && r.statsB == statsB
    {
      if side == SideA then this.(storeA := s) else this.(storeB := s)
    }

    /** `_stats[side].<event>()`. */
    function Count(side: Side, e: Event): (r: World<Item>)
      ensures r.Stats(side) == Stats(side).Bump(e) && r.Stats(side.Other()) == Stats(side.Other())
      ensures r.storeA == storeA && r.storeB == storeB && r.ids == ids
    {
      if side == SideA then this.(statsA := statsA.Bump(e)) else this.(statsB := statsB.Bump(e))
    }
  }

  /** The exceptions that end a run. */
  datatype Error =
    | LookupMiss        // KeyError from a correspondence lookup
    | ValueDuplication  // bidict refuses a value already bound to another key
    | InsertRaised      // an inserter raised and exceptions are not caught
    | ConvertRaised     // a converter raised and exceptions are not caught
    | DeleteRaised      // a deleter, or the pop after it, raised and exceptions are not caught
    | MixUnsupported    // RuntimeError: a strategy answered Mix
    | MissingItem       // AssertionError: an item to update is None
    | Unclassified      // RuntimeError: a touched id neither modified nor deleted

  datatype Status = Ok | Fail(error: Error)

  datatype Outcome<Item> = Outcome(world: World<Item>, status: Status)

  datatype Insertion<Item> = Insertion(world: World<Item>, newId: Option<ID>, status: Status)

  /** The item that `_convert_n_insert` would hand to the inserter: fetched from the side opposite `to`, then converted. */
  function Converted<Item>(cfg: Config<Item>, w: World<Item>, id: ID, to: Side): Result<Option<Item>, Error> {
    match GetItem(w.Store(to.Other()), id)
    case None => Success(None)
    case Some(item) => cfg.Convert(to, item)
  }

  /**
   * `_convert_n_insert(id, to)`: a missing item or a declining converter
   * stops before anything happens, a converter failure not caught ends the
   * run; otherwise the insertion is attempted and counted, even when the
   * inserter's failure was caught.
   */
  function ConvertNInsert<Item>(cfg: Config<Item>, w: World<Item>, id: ID, to: Side): Insertion<Item> {
    match Converted(cfg, w, id, to)
    case Failure(e) => Insertion(w, None, Fail(e))
    case Success(None) => Insertion(w, None, Ok)
    case Success(Some(item)) =>
      match cfg.Inserter(to)(item)
      case Some(newId) => Insertion(w.WithStore(to, w.Store(to)[newId := item]).Count(to, Created), Some(newId), Ok)
      case None =>
        if cfg.catchExceptions then Insertion(w.Count(to, Created), None, Ok)
        else Insertion(w, None, Fail(InsertRaised))
  }

  /** One iteration of `_sync_new_items`: insert, then `map_[id] = inserted_id` in the view keyed by the origin side. */
  function SyncNewItem<Item>(cfg: Config<Item>, w: World<Item>, id: ID, to: Side): Outcome<Item> {
    var ins := ConvertNInsert(cfg, w, id, to);
    if ins.status.Fail? || ins.newId.None? then Outcome(ins.world, ins.status)
    else
      match ins.world.ids.Set(to.Other(), id, ins.newId.value)
      case None => Outcome(ins.world, Fail(ValueDuplication))
      case Some(ids') => Outcome(ins.world.(ids := ids'), Ok)
  }

  /** `_convert_n_update_to_A/B(id, item)`: asserts the item exists, converts it and writes it to `id` on side `to`. */
  function ConvertNUpdate<Item>(cfg: Config<Item>, w: World<Item>, to: Side, id: ID, item: Option<Item>): Outcome<Item> {
    match item
    case None => Outcome(w, Fail(MissingItem))
    case Some(x) =>
      match cfg.Convert(to, x)
      case Failure(e) => Outcome(w, Fail(e))
      case Success(None) => Outcome(w, Ok)
      case Success(Some(y)) => Outcome(w.WithStore(to, w.Store(to)[id := y]).Count(to, Updated), Ok)
  }

  /**
   * `_deleter_to_A/B(id)`: the function built by `delete_n_pop` for side `to`
   * (it pops from the view keyed by `to`), wrapped by `_decide_catch_exc`,
   * which turns a raised `KeyError` into a no-op when exceptions are caught.
   */
  function WrappedDelete<Item>(cfg: Config<Item>, w: World<Item>, to: Side, id: ID): Outcome<Item> {
    var d := DeleteNPop(w.Store(to), w.ids, to, id);
    var w' := w.WithStore(to, d.store).(ids := d.ids);
    if d.outcome != Done && !cfg.catchExceptions then Outcome(w', Fail(DeleteRaised)) else Outcome(w', Ok)
  }

  /** `_deleter_to_A/B(id)` then `_stats[side].delete()`: the attempt is counted even when its failure was caught. */
  function DeleteAndCount<Item>(cfg: Config<Item>, w: World<Item>, to: Side, id: ID): Outcome<Item> {
    var r := WrappedDelete(cfg, w, to, id);
    if r.status.Fail? then r else Outcome(r.world.Count(to, Deleted), Ok)
  }

  /** `view.pop(id)` alone, for an item both sides already deleted (lines 235, 245). */
  function PopOnly<Item>(w: World<Item>, side: Side, id: ID): Outcome<Item> {
    match w.ids.Pop(side, id)
    case None => Outcome(w, Fail(LookupMiss))
    case Some(ids') => Outcome(w.(ids := ids'), Ok)
  }

  /** One iteration of the conflict loop, for the B identifier `idB`. */
  function ResolveConflict<Item>(cfg: Config<Item>, w: World<Item>, chA: SideChanges, chB: SideChanges,
                                 idB: ID): Outcome<Item> {
    match w.ids.Get(SideB, idB)
    case None => Outcome(w, Fail(LookupMiss))
    case Some(idA) =>
      var itemB := GetItem(w.storeB, idB);
      var itemA := GetItem(w.storeA, idA);
      var result := cfg.strategy.Resolve(itemA, itemB);
      if result.id == Mix then Outcome(w, Fail(MixUnsupported))
      else if result.id == A then
        if itemA.None? then
          if idB in chB.deleted then PopOnly(w, SideB, idB)
          else DeleteAndCount(cfg, w, SideB, idB)
        else ConvertNUpdate(cfg, w, SideB, idB, itemA)
      else
        if itemB.None? then
          if idA in chA.deleted then PopOnly(w, SideA, idA)
          else DeleteAndCount(cfg, w, SideA, idA)
        else ConvertNUpdate(cfg, w, SideA, idA, itemB)
  }

  /** One iteration of a non-conflict loop: `id` was touched on side `from` only. */
  function PropagateChange<Item>(cfg: Config<Item>, w: World<Item>, from: Side, ch: SideChanges,
                                 id: ID): Outcome<Item> {
    match w.ids.Get(from, id)
    case None => Outcome(w, Fail(LookupMiss))
    case Some(other) =>
      if id in ch.modified then ConvertNUpdate(cfg, w, from.Other(), other, GetItem(w.Store(from), id))
      else if id in ch.deleted then DeleteAndCount(cfg, w, from.Other(), other)
      else Outcome(w, Fail(Unclassified))
  }

  /** The five loops of a run: new items of each side, conflicts, non-conflicts of each side. */
  datatype Phase =
    | NewItems(to: Side)
    | Conflicts(changesA: SideChanges, changesB: SideChanges)
    | NonConflicts(from: Side, changes: SideChanges)

  function Step<Item>(cfg: Config<Item>, phase: Phase, w: World<Item>, id: ID): Outcome<Item> {
    match phase
    case NewItems(to) => SyncNewItem(cfg, w, id, to)
    case Conflicts(chA, chB) => ResolveConflict(cfg, w, chA, chB, id)
    case NonConflicts(from, ch) => PropagateChange(cfg, w, from, ch, id)
  }

  /** A loop that visits `order` and stops at the first failure. */
  function Run<Item>(cfg: Config<Item>, phase: Phase, w: World<Item>, order: seq<ID>): Outcome<Item>
    decreases |order|
  {
    if order == [] then Outcome(w, Ok)
    else
      var prev := Run(cfg, phase, w, order[..|order| - 1]);
      if prev.status.Fail? then prev else Step(cfg, phase, prev.world, order[|order| - 1])
  }

  /** No id occurs twice in `order`. */
  ghost predicate Distinct(order: seq<ID>) {
    forall i, j :: 0 <= i < j < |order| ==> order[i] != order[j]
  }

  /** `order` lists every element of `s` exactly once. */
  ghost predicate IsEnum(order: seq<ID>, s: set<ID>) {
    Distinct(order) && (forall x :: x in order <==> x in s)
  }

  ghost function Enumerate(s: set<ID>): (r: seq<ID>)
    ensures IsEnum(r, s)
  {
    if s == {} then []
    else
      var x :| x in s;
      [x] + Enumerate(s - {x})
  }

  /** Once a loop has failed, the ids after the failing one change nothing. */
  lemma {:induction false} RunStopsAtFailure<Item>(cfg: Config<Item>, phase: Phase, w: World<Item>,
                                                   order: seq<ID>, rest: seq<ID>)
    requires Run(cfg, phase, w, order).status.Fail?
    ensures Run(cfg, phase, w, order + rest) == Run(cfg, phase, w, order)
    decreases |rest|
  {
    if rest != [] {
      var front := rest[..|rest| - 1];
      assert (order + rest)[..|order + rest| - 1] == order + front;
      RunStopsAtFailure(cfg, phase, w, order, front);
    } else {
      assert order + rest == order;
    }
  }

  /** The fold one id further: the step runs on the result of the shorter fold unless that one failed. */
  lemma RunSnoc<Item>(cfg: Config<Item>, phase: Phase, w: World<Item>, order: seq<ID>, id: ID)
    ensures var prev := Run(cfg, phase, w, order);
      Run(cfg, phase, w, order + [id]) == if prev.status.Fail? then prev else Step(cfg, phase, prev.world, id)
  {
    assert (order + [id])[..|order|] == order;
  }

  /** Visiting one more id of a set extends an enumeration of the visited part. */
  lemma IsEnumSnoc(order: seq<ID>, visited: set<ID>, id: ID)
    requires IsEnum(order, visited) && id !in visited
    ensures IsEnum(order + [id], visited + {id})
  {
    IsEnumAppend(order, [id], visited, {id});
  }

  lemma IsEnumAppend(order: seq<ID>, rest: seq<ID>, s1: set<ID>, s2: set<ID>)
    requires IsEnum(order, s1) && IsEnum(rest, s2) && s1 !! s2
    ensures IsEnum(order + rest, s1 + s2)
  {
    forall i, j | 0 <= i < j < |order + rest|
      ensures (order + rest)[i] != (order + rest)[j]
    {
      if j < |order| {
      } else if i >= |order| {
        assert (order + rest)[i] == rest[i - |order|];
        assert (order + rest)[j] == rest[j - |order|];
      } else {
        assert (order + rest)[i] in s1;
        assert (order + rest)[j] == rest[j - |order|];
        assert rest[j - |order|] in s2;
      }
    }
  }

  /** The sets the conflict detection computes, in the identifiers of the side named. */
  datatype Classification = Classification(conflicts: set<ID>, nonConflictsB: set<ID>, nonConflictsA: set<ID>)

  /**
   * Lines 182-185, 214 and 252-253: each side's touched ids are mapped through
   * the correspondence (a `KeyError` for any unmapped one), and the conflicts
   * are the B ids touched on B whose A correspondent was touched on A.
   */
  function Classify(ids: Bimap, chA: SideChanges, chB: SideChanges): Result<Classification, Error> {
    var touchedB := chB.Touched();
    var touchedA := chA.Touched();
    if !(touchedB <= ids.bwd.Keys && touchedA <= ids.fwd.Keys) then Failure(LookupMiss)
    else
      var touchedBInA := set b | b in touchedB :: ids.bwd[b];
      var touchedAInB := set a | a in touchedA :: ids.fwd[a];
      Success(Classification(touchedB * touchedAInB, touchedB - touchedAInB, touchedA - touchedBInA))
  }

  /** `_sync_new_items`: A's new ids into B, then B's new ids into A. */
  function SyncNewItems<Item>(cfg: Config<Item>, w: World<Item>, newA: seq<ID>, newB: seq<ID>): Outcome<Item> {
    var r := Run(cfg, NewItems(SideB), w, newA);
    if r.status.Fail? then r else Run(cfg, NewItems(SideA), r.world, newB)
  }

  /** The order each of the five loops of one run took. */
  datatype Orders = Orders(newA: seq<ID>, newB: seq<ID>, conflicts: seq<ID>,
                           nonConflictsB: seq<ID>, nonConflictsA: seq<ID>)

  /** `_sync(changes_A, changes_B)`, for the given loop orders. */
  function SyncRun<Item>(cfg: Config<Item>, w: World<Item>, chA: SideChanges, chB: SideChanges,
                         o: Orders): Outcome<Item> {
    var r := SyncNewItems(cfg, w, o.newA, o.newB);
    if r.status.Fail? then r
    else
      match Classify(r.world.ids, chA, chB)
      case Failure(e) => Outcome(r.world, Fail(e))
      case Success(c) =>
        var r3 := Run(cfg, Conflicts(chA, chB), r.world, o.conflicts);
        if r3.status.Fail? then r3
        else
          var r4 := Run(cfg, NonConflicts(SideB, chB), r3.world, o.nonConflictsB);
          if r4.status.Fail? then r4
          else Run(cfg, NonConflicts(SideA, chA), r4.world, o.nonConflictsA)
  }

  /** The loop orders a run can take: each loop enumerates the set it runs over. */
  ghost predicate Admissible<Item>(cfg: Config<Item>, w: World<Item>, chA: SideChanges, chB: SideChanges,
                                   o: Orders) {
    && IsEnum(o.newA, chA.added)
    && IsEnum(o.newB, chB.added)
    && var r := SyncNewItems(cfg, w, o.newA, o.newB);
       var c := Classify(r.world.ids, chA, chB);
       (r.status.Ok? && c.Success? ==>
          && IsEnum(o.conflicts, c.value.conflicts)
          && IsEnum(o.nonConflictsB, c.value.nonConflictsB)
          && IsEnum(o.nonConflictsA, c.value.nonConflictsA))
  }
}

/**
 * What one step of a run does to the stores, the correspondence and the
 * statistics, case by case (item_synchronizer/synchronizer.py:222-275), the
 * scenarios of the repository's tests, and the errors a whole run can end in.
 */
module SyncScenarios {
  import opened Types
  import opened Wrappers
  import opened Bimaps
  import opened Helpers
  import opened Resolution
  import opened SyncSpec
  import opened SyncProperties

  /** The identifier of `side` in the pair (idA, idB). */
  function Of(side: Side, idA: ID, idB: ID): ID {
    if side == SideA then idA else idB
  }

  function ChangesOf(side: Side, chA: SideChanges, chB: SideChanges): SideChanges {
    if side == SideA then chA else chB
  }

  /** The strategy names a side for the conflicting pair (idA, idB); always so for a built-in one. */
  predicate NotMixed<Item>(cfg: Config<Item>, w: World<Item>, idA: ID, idB: ID) {
    cfg.strategy.Resolve(GetItem(w.storeA, idA), GetItem(w.storeB, idB)).id != Mix
  }

  /** The side the strategy picks for the conflicting pair (idA, idB). */
  function Winner<Item>(cfg: Config<Item>, w: World<Item>, idA: ID, idB: ID): Side {
    if cfg.strategy.Resolve(GetItem(w.storeA, idA), GetItem(w.storeB, idB)).id == A then SideA else SideB
  }

  // ---------------------------------------------------------------------------
  // The conflict loop, lines 222-250
  // ---------------------------------------------------------------------------

  /** The winner still has its item: the loser's item is overwritten with its conversion, and nothing else moves. */
  lemma ConflictCopiesWinner<Item>(cfg: Config<Item>, w: World<Item>, chA: SideChanges, chB: SideChanges,
                                   idA: ID, idB: ID)
    requires w.ids.Get(SideB, idB) == Some(idA) && NotMixed(cfg, w, idA, idB)
    requires var win := Winner(cfg, w, idA, idB); Of(win, idA, idB) in w.Store(win)
    ensures var win := Winner(cfg, w, idA, idB);
      var lose := win.Other();
      var r := ResolveConflict(cfg, w, chA, chB, idB);
      match cfg.Convert(lose, w.Store(win)[Of(win, idA, idB)])
      case Failure(e) => r == Outcome(w, Fail(e))
      case Success(None) => r == Outcome(w, Ok)
      case Success(Some(y)) =>
        && r.status == Ok
        && r.world.Store(lose) == w.Store(lose)[Of(lose, idA, idB) := y]
        && r.world.Store(win) == w.Store(win)
        && r.world.ids == w.ids
        && r.world.Stats(lose) == w.Stats(lose).Bump(Updated)
        && r.world.Stats(win) == w.Stats(win)
  {
  }

  /**
   * The winner has no item and the loser's side already reported the loser
   * deleted: only the pair leaves the correspondence.
   */
  lemma ConflictDropsPair<Item>(cfg: Config<Item>, w: World<Item>, chA: SideChanges, chB: SideChanges,
                                idA: ID, idB: ID)
    requires w.ids.Valid() && w.ids.Get(SideB, idB) == Some(idA) && NotMixed(cfg, w, idA, idB)
    requires var win := Winner(cfg, w, idA, idB);
      Of(win, idA, idB) !in w.Store(win) && Of(win.Other(), idA, idB) in ChangesOf(win.Other(), chA, chB).deleted
    ensures var r := ResolveConflict(cfg, w, chA, chB, idB);
      && r.status == Ok
      && r.world == w.(ids := r.world.ids)
      && r.world.ids.Valid()
      && r.world.ids.Get(SideB, idB).None? && r.world.ids.Get(SideA, idA).None?
      && Keeps(w.ids, r.world.ids, SideB, idB)
  {
    PopKeeps(w.ids, SideB, idB, SideB, idB);
    PopKeeps(w.ids, SideB, idB, SideA, idA);
  }

  /**
   * The winner has no item and the loser was modified: the loser is deleted
   * from its store and the pair from the correspondence, and the deletion is
   * counted on the loser's side.
   */
  lemma ConflictDeletesLoser<Item>(cfg: Config<Item>, w: World<Item>, chA: SideChanges, chB: SideChanges,
                                   idA: ID, idB: ID)
    requires w.ids.Valid() && w.ids.Get(SideB, idB) == Some(idA) && NotMixed(cfg, w, idA, idB)
    requires var win := Winner(cfg, w, idA, idB); var lose := win.Other();
      && Of(win, idA, idB) !in w.Store(win)
      && Of(lose, idA, idB) !in ChangesOf(lose, chA, chB).deleted
      && Of(lose, idA, idB) in w.Store(lose)
    ensures var win := Winner(cfg, w, idA, idB); var lose := win.Other();
      var r := ResolveConflict(cfg, w, chA, chB, idB);
      && r.status == Ok
      && r.world.Store(lose) == w.Store(lose) - {Of(lose, idA, idB)}
      && r.world.Store(win) == w.Store(win)
      && r.world.ids.Get(SideB, idB).None? && r.world.ids.Get(SideA, idA).None?
      && Keeps(w.ids, r.world.ids, SideB, idB)
      && r.world.Stats(lose) == w.Stats(lose).Bump(Deleted)
      && r.world.Stats(win) == w.Stats(win)
  {
    var lose := Winner(cfg, w, idA, idB).Other();
    DeleteKeeps(cfg, w, lose, Of(lose, idA, idB), SideB, idB);
    MutualInverse(w.ids, SideB, idB, idA);
  }

  /**
   * The winner has no item, the loser was modified but its store no longer
   * has it: the deleter's `KeyError` is swallowed and still counted when
   * exceptions are caught, and ends the run otherwise.
   */
  lemma ConflictDeleteMisses<Item>(cfg: Config<Item>, w: World<Item>, chA: SideChanges, chB: SideChanges,
                                   idA: ID, idB: ID)
    requires w.ids.Get(SideB, idB) == Some(idA) && NotMixed(cfg, w, idA, idB)
    requires var win := Winner(cfg, w, idA, idB); var lose := win.Other();
      && Of(win, idA, idB) !in w.Store(win)
      && Of(lose, idA, idB) !in ChangesOf(lose, chA, chB).deleted
      && Of(lose, idA, idB) !in w.Store(lose)
    ensures var lose := Winner(cfg, w, idA, idB).Other();
      ResolveConflict(cfg, w, chA, chB, idB) ==
        if cfg.catchExceptions then Outcome(w.Count(lose, Deleted), Ok) else Outcome(w, Fail(DeleteRaised))
  {
    var lose := Winner(cfg, w, idA, idB).Other();
    assert w.WithStore(lose, w.Store(lose)) == w;
  }

  /**
   * A converter that raises while exceptions are not caught ends the run
   * before the insert or the update (lines 114, 128 and 137), with nothing
   * changed; when they are caught it is a declining converter.
   */
  lemma ConverterFailureAborts<Item>(cfg: Config<Item>, w: World<Item>, to: Side, id: ID, x: Item)
    requires cfg.Converter(to)(x) == ConverterFailed
    ensures ConvertNUpdate(cfg, w, to, id, Some(x)) ==
      if cfg.catchExceptions then Outcome(w, Ok) else Outcome(w, Fail(ConvertRaised))
    ensures GetItem(w.Store(to.Other()), id) == Some(x) ==>
      ConvertNInsert(cfg, w, id, to) ==
        if cfg.catchExceptions then Insertion(w, None, Ok) else Insertion(w, None, Fail(ConvertRaised))
  {
  }

  /** A strategy that answers `Mix` ends the run with nothing changed. */
  lemma ConflictMixAborts<Item>(cfg: Config<Item>, w: World<Item>, chA: SideChanges, chB: SideChanges,
                                idA: ID, idB: ID)
    requires w.ids.Get(SideB, idB) == Some(idA)
    requires cfg.strategy.Resolve(GetItem(w.storeA, idA), GetItem(w.storeB, idB)).id == Mix
    ensures ResolveConflict(cfg, w, chA, chB, idB) == Outcome(w, Fail(MixUnsupported))
    ensures !cfg.strategy.BuiltIn()
  {
  }

  // ---------------------------------------------------------------------------
  // The non-conflict loops, lines 255-275
  // ---------------------------------------------------------------------------

  /** A modification on one side only is converted and written over the correspondent on the other side. */
  lemma PropagateModified<Item>(cfg: Config<Item>, w: World<Item>, from: Side, ch: SideChanges, id: ID, other: ID)
    requires w.ids.Get(from, id) == Some(other) && id in ch.modified && id in w.Store(from)
    ensures var to := from.Other();
      var r := PropagateChange(cfg, w, from, ch, id);
      match cfg.Convert(to, w.Store(from)[id])
      case Failure(e) => r == Outcome(w, Fail(e))
      case Success(None) => r == Outcome(w, Ok)
      case Success(Some(y)) =>
        && r.status == Ok
        && r.world.Store(to) == w.Store(to)[other := y]
        && r.world.Store(from) == w.Store(from)
        && r.world.ids == w.ids
        && r.world.Stats(to) == w.Stats(to).Bump(Updated)
        && r.world.Stats(from) == w.Stats(from)
  {
  }

  /** A modified id its own getter no longer finds trips the assertion of `_convert_n_update`. */
  lemma PropagateModifiedMissing<Item>(cfg: Config<Item>, w: World<Item>, from: Side, ch: SideChanges, id: ID)
    requires w.ids.Get(from, id).Some? && id in ch.modified && id !in w.Store(from)
    ensures PropagateChange(cfg, w, from, ch, id) == Outcome(w, Fail(MissingItem))
  {
  }

  /** A deletion on one side only deletes the correspondent, drops the pair and counts the deletion. */
  lemma PropagateDeleted<Item>(cfg: Config<Item>, w: World<Item>, from: Side, ch: SideChanges, id: ID, other: ID)
    requires w.ids.Valid() && w.ids.Get(from, id) == Some(other)
    requires id !in ch.modified && id in ch.deleted && other in w.Store(from.Other())
    ensures var to := from.Other();
      var r := PropagateChange(cfg, w, from, ch, id);
      && r.status == Ok
      && r.world.Store(to) == w.Store(to) - {other}
      && r.world.Store(from) == w.Store(from)
      && r.world.ids.Get(from, id).None? && r.world.ids.Get(to, other).None?
      && Keeps(w.ids, r.world.ids, from, id)
      && r.world.Stats(to) == w.Stats(to).Bump(Deleted)
      && r.world.Stats(from) == w.Stats(from)
  {
    DeleteKeeps(cfg, w, from.Other(), other, from, id);
    MutualInverse(w.ids, from, id, other);
  }

  /** The correspondent is already gone from its store: caught and counted, or the end of the run. */
  lemma PropagateDeleteMisses<Item>(cfg: Config<Item>, w: World<Item>, from: Side, ch: SideChanges, id: ID,
                                    other: ID)
    requires w.ids.Get(from, id) == Some(other)
    requires id !in ch.modified && id in ch.deleted && other !in w.Store(from.Other())
    ensures PropagateChange(cfg, w, from, ch, id) ==
      if cfg.catchExceptions then Outcome(w.Count(from.Other(), Deleted), Ok) else Outcome(w, Fail(DeleteRaised))
  {
    assert w.WithStore(from.Other(), w.Store(from.Other())) == w;
  }

  // ---------------------------------------------------------------------------
  // Scenarios of the repository's tests
  // ---------------------------------------------------------------------------

  /**
   * An item deleted on both sides (tests/test_synchronizer.py:268-293): with
   * either built-in fixed-side strategy the stores and the statistics stay
   * as they are, and the correspondence loses the pair, the same whichever
   * side won.
   */
  lemma DeletedOnBothSides<Item>(cfg: Config<Item>, w: World<Item>, chA: SideChanges, chB: SideChanges,
                                 idA: ID, idB: ID)
    requires w.ids.Valid() && w.ids.Get(SideB, idB) == Some(idA) && NotMixed(cfg, w, idA, idB)
    requires idA !in w.storeA && idB !in w.storeB && idA in chA.deleted && idB in chB.deleted
    ensures var r := ResolveConflict(cfg, w, chA, chB, idB);
      && r == Outcome(w.(ids := w.ids.Pop(SideB, idB).value), Ok)
      && r.world.ids == w.ids.Pop(SideA, idA).value
  {
    PopEitherView(w.ids, SideB, idB);
  }

  /**
   * An item modified on A and deleted on B (tests/test_synchronizer.py:195-220):
   * AlwaysFirst writes A's converted item back into B under the same
   * identifier and keeps the pair; AlwaysSecond deletes it from A too and
   * drops the pair.
   */
  lemma ModifiedOnADeletedOnB<Item>(cfg: Config<Item>, w: World<Item>, chA: SideChanges, chB: SideChanges,
                                    idA: ID, idB: ID, y: Item)
    requires w.ids.Valid() && w.ids.Get(SideB, idB) == Some(idA)
    requires idA in w.storeA && idA !in chA.deleted && idB !in w.storeB && idB in chB.deleted
    requires cfg.convertToB(w.storeA[idA]) == Produced(y)
    ensures cfg.strategy == AlwaysFirst ==>
      var r := ResolveConflict(cfg, w, chA, chB, idB);
      r.status == Ok && r.world.storeB == w.storeB[idB := y] && r.world.storeA == w.storeA && r.world.ids == w.ids
    ensures cfg.strategy == AlwaysSecond ==>
      var r := ResolveConflict(cfg, w, chA, chB, idB);
      && r.status == Ok && r.world.storeA == w.storeA - {idA} && r.world.storeB == w.storeB
      && r.world.ids.Get(SideB, idB).None? && r.world.ids.Get(SideA, idA).None?
  {
    if cfg.strategy == AlwaysFirst {
      ConflictCopiesWinner(cfg, w, chA, chB, idA, idB);
    }
    if cfg.strategy == AlwaysSecond {
      ConflictDeletesLoser(cfg, w, chA, chB, idA, idB);
    }
  }

  /**
   * An item modified on both sides (tests/test_synchronizer.py:221-265): the
   * fixed-side strategy's item, converted, overwrites the other side's.
   */
  lemma ModifiedOnBothSides<Item>(cfg: Config<Item>, w: World<Item>, chA: SideChanges, chB: SideChanges,
                                  idA: ID, idB: ID)
    requires w.ids.Get(SideB, idB) == Some(idA) && idA in w.storeA && idB in w.storeB
    requires cfg.strategy == AlwaysFirst || cfg.strategy == AlwaysSecond
    ensures var r := ResolveConflict(cfg, w, chA, chB, idB);
      && (cfg.strategy == AlwaysFirst && cfg.convertToB(w.storeA[idA]).Produced? ==>
            r.world.storeB == w.storeB[idB := cfg.convertToB(w.storeA[idA]).item] && r.world.storeA == w.storeA)
      && (cfg.strategy == AlwaysSecond && cfg.convertToA(w.storeB[idB]).Produced? ==>
            r.world.storeA == w.storeA[idA := cfg.convertToA(w.storeB[idB]).item] && r.world.storeB == w.storeB)
  {
    ConflictCopiesWinner(cfg, w, chA, chB, idA, idB);
  }

  // ---------------------------------------------------------------------------
  // How a whole run can end
  // ---------------------------------------------------------------------------

  /**
   * A conflict step can only end in a lookup's `KeyError`, a mixed
   * resolution, a missing item to update, or a converter's or deleter's
   * failure when exceptions are not caught.
   */
  lemma ConflictsAvoid<Item>(cfg: Config<Item>, chA: SideChanges, chB: SideChanges, e: Error)
    requires e == Unclassified || e == InsertRaised || e == ValueDuplication
      || (e == MixUnsupported && cfg.strategy.BuiltIn())
      || ((e == DeleteRaised || e == ConvertRaised) && cfg.catchExceptions)
    ensures forall w': World<Item>, id :: Visitable(Conflicts(chA, chB), id) ==>
      Step(cfg, Conflicts(chA, chB), w', id).status != Fail(e)
  {
    forall w': World<Item>, id | Visitable(Conflicts(chA, chB), id)
      ensures Step(cfg, Conflicts(chA, chB), w', id).status != Fail(e)
    {
    }
  }

  /**
   * A non-conflict step on a touched id can only end in a lookup's
   * `KeyError`, a missing item to update, or a converter's or deleter's
   * failure when exceptions are not caught.
   */
  lemma PropagateAvoid<Item>(cfg: Config<Item>, from: Side, ch: SideChanges, e: Error)
    requires e == Unclassified || e == InsertRaised || e == ValueDuplication || e == MixUnsupported
      || ((e == DeleteRaised || e == ConvertRaised) && cfg.catchExceptions)
    ensures forall w': World<Item>, id :: Visitable(NonConflicts(from, ch), id) ==>
      Step(cfg, NonConflicts(from, ch), w', id).status != Fail(e)
  {
    forall w': World<Item>, id | Visitable(NonConflicts(from, ch), id)
      ensures Step(cfg, NonConflicts(from, ch), w', id).status != Fail(e)
    {
    }
  }

  /** A run stops at the first of these, so the steps that can raise an error are the only ways to it. */
  lemma AllStepsAvoid<Item>(cfg: Config<Item>, chA: SideChanges, chB: SideChanges, e: Error)
    requires e == Unclassified || (e == MixUnsupported && cfg.strategy.BuiltIn())
      || ((e == DeleteRaised || e == InsertRaised || e == ConvertRaised) && cfg.catchExceptions)
    ensures forall w': World<Item>, id :: Visitable(NewItems(SideB), id) ==>
      Step(cfg, NewItems(SideB), w', id).status != Fail(e)
    ensures forall w': World<Item>, id :: Visitable(NewItems(SideA), id) ==>
      Step(cfg, NewItems(SideA), w', id).status != Fail(e)
    ensures forall w': World<Item>, id :: Visitable(Conflicts(chA, chB), id) ==>
      Step(cfg, Conflicts(chA, chB), w', id).status != Fail(e)
    ensures forall w': World<Item>, id :: Visitable(NonConflicts(SideB, chB), id) ==>
      Step(cfg, NonConflicts(SideB, chB), w', id).status != Fail(e)
    ensures forall w': World<Item>, id :: Visitable(NonConflicts(SideA, chA), id) ==>
      Step(cfg, NonConflicts(SideA, chA), w', id).status != Fail(e)
  {
    NewItemsAvoid(cfg, SideB, e);
    NewItemsAvoid(cfg, SideA, e);
    ConflictsAvoid(cfg, chA, chB, e);
    PropagateAvoid(cfg, SideB, chB, e);
    PropagateAvoid(cfg, SideA, chA, e);
  }

  /**
   * Neither non-conflict loop reaches its "Programmatic Error" branch
   * (lines 262 and 274): every id they visit was modified or deleted.
   */
  lemma NeverUnclassified<Item>(cfg: Config<Item>, w: World<Item>, chA: SideChanges, chB: SideChanges, o: Orders)
    requires Admissible(cfg, w, chA, chB, o)
    ensures SyncRun(cfg, w, chA, chB, o).status != Fail(Unclassified)
  {
    AllStepsAvoid(cfg, chA, chB, Unclassified);
    SyncAvoids(cfg, w, chA, chB, o, Unclassified);
  }

  /** With a built-in strategy no run ends in the `RuntimeError` of a mixed resolution. */
  lemma BuiltInNeverMix<Item>(cfg: Config<Item>, w: World<Item>, chA: SideChanges, chB: SideChanges, o: Orders)
    requires cfg.strategy.BuiltIn() && Admissible(cfg, w, chA, chB, o)
    ensures SyncRun(cfg, w, chA, chB, o).status != Fail(MixUnsupported)
  {
    AllStepsAvoid(cfg, chA, chB, MixUnsupported);
    SyncAvoids(cfg, w, chA, chB, o, MixUnsupported);
  }

  /** With exceptions caught, no inserter, converter or deleter failure ends a run. */
  lemma CaughtNeverRaises<Item>(cfg: Config<Item>, w: World<Item>, chA: SideChanges, chB: SideChanges, o: Orders)
    requires cfg.catchExceptions && Admissible(cfg, w, chA, chB, o)
    ensures SyncRun(cfg, w, chA, chB, o).status != Fail(InsertRaised)
    ensures SyncRun(cfg, w, chA, chB, o).status != Fail(DeleteRaised)
    ensures SyncRun(cfg, w, chA, chB, o).status != Fail(ConvertRaised)
  {
    AllStepsAvoid(cfg, chA, chB, InsertRaised);
    SyncAvoids(cfg, w, chA, chB, o, InsertRaised);
    AllStepsAvoid(cfg, chA, chB, DeleteRaised);
    SyncAvoids(cfg, w, chA, chB, o, DeleteRaised);
    AllStepsAvoid(cfg, chA, chB, ConvertRaised);
    SyncAvoids(cfg, w, chA, chB, o, ConvertRaised);
  }

  // ---------------------------------------------------------------------------
  // New items, lines 126-142
  // ---------------------------------------------------------------------------

  /** The identifier an inserter answers for the conversion of `id`, if there is a conversion and the insert succeeds. */
  function InsertedId<Item>(cfg: Config<Item>, w: World<Item>, id: ID, to: Side): Option<ID> {
    match Converted(cfg, w, id, to)
    case Success(Some(item)) => cfg.Inserter(to)(item)
    case _ => None
  }

  /** A successful new-item step for `id` keeps the other new items' pairs and their stored copies. */
  lemma NewItemKeeps<Item>(cfg: Config<Item>, w: World<Item>, id: ID, to: Side, x: ID, k: ID)
    requires w.ids.Valid() && x != id && w.ids.Get(to.Other(), x) == Some(k) && k in w.Store(to)
    requires SyncNewItem(cfg, w, id, to).status.Ok?
    ensures var r := SyncNewItem(cfg, w, id, to).world;
      && r.ids.Valid()
      && r.ids.Get(to.Other(), x) == Some(k)
      && k in r.Store(to) && r.Store(to)[k] == w.Store(to)[k]
      && r.Store(to.Other()) == w.Store(to.Other())
  {
    MutualInverse(w.ids, to.Other(), x, k);
  }

  /**
   * A new-items loop that ends without error leaves the origin store as it
   * was, and every visited id whose conversion the inserter accepted is
   * mapped to the inserted identifier, under which the destination store
   * holds the converted item.
   */
  lemma {:induction false} NewItemsInserted<Item>(cfg: Config<Item>, w: World<Item>, to: Side, order: seq<ID>)
    requires w.ids.Valid() && Distinct(order)
    requires Run(cfg, NewItems(to), w, order).status.Ok?
    ensures var r := Run(cfg, NewItems(to), w, order).world;
      && r.ids.Valid()
      && r.Store(to.Other()) == w.Store(to.Other())
      && forall x :: x in order && InsertedId(cfg, w, x, to).Some? ==>
           var k := InsertedId(cfg, w, x, to).value;
           && r.ids.Get(to.Other(), x) == Some(k)
           && k in r.Store(to) && r.Store(to)[k] == Converted(cfg, w, x, to).value.value
    decreases |order|
  {
    if order != [] {
      var front := order[..|order| - 1];
      var last := order[|order| - 1];
      var prev := Run(cfg, NewItems(to), w, front);
      NewItemsInserted(cfg, w, to, front);
      var r := SyncNewItem(cfg, prev.world, last, to).world;
      forall x | x in order && InsertedId(cfg, w, x, to).Some?
        ensures r.ids.Get(to.Other(), x) == Some(InsertedId(cfg, w, x, to).value)
        ensures InsertedId(cfg, w, x, to).value in r.Store(to)
        ensures r.Store(to)[InsertedId(cfg, w, x, to).value] == Converted(cfg, w, x, to).value.value
      {
        if x == last {
          assert Converted(cfg, prev.world, x, to) == Converted(cfg, w, x, to);
        } else {
          NewItemKeeps(cfg, prev.world, last, to, x, InsertedId(cfg, w, x, to).value);
        }
      }
    }
  }

  /**
   * One new id (lines 99-124 and 171-174): with no item or a declining
   * converter nothing is inserted, mapped or counted; an insert that answers
   * an identifier not bound to another id stores the converted item under
   * it, maps the new id to it and counts a creation; a failed insert is
   * counted when caught and ends the run otherwise.
   */
  lemma NewItemStep<Item>(cfg: Config<Item>, w: World<Item>, id: ID, to: Side)
    requires w.ids.Valid()
    ensures var r := SyncNewItem(cfg, w, id, to);
      match Converted(cfg, w, id, to)
      case Failure(e) => r == Outcome(w, Fail(e)) && e == ConvertRaised && !cfg.catchExceptions
      case Success(None) => r == Outcome(w, Ok)
      case Success(Some(item)) =>
        match cfg.Inserter(to)(item)
        case None =>
          r == if cfg.catchExceptions then Outcome(w.Count(to, Created), Ok) else Outcome(w, Fail(InsertRaised))
        case Some(k) =>
          var view := w.ids.View(to.Other());
          if k in view.bwd && view.bwd[k] != id then r.status == Fail(ValueDuplication)
          else
            && r.status == Ok
            && r.world.Store(to) == w.Store(to)[k := item]
            && r.world.Store(to.Other()) == w.Store(to.Other())
            && r.world.ids.Get(to.Other(), id) == Some(k)
            && r.world.ids.Get(to, k) == Some(id)
            && r.world.Stats(to) == w.Stats(to).Bump(Created)
            && r.world.Stats(to.Other()) == w.Stats(to.Other())
  {
  }

  /**
   * Inserters that answer fresh identifiers, ones bound to nothing before
   * the loop and distinct from each other, never meet bidict's
   * value-duplication error; the values bound afterwards are the old ones
   * and the inserted ones.
   */
  lemma {:induction false} NewItemsFresh<Item>(cfg: Config<Item>, w: World<Item>, to: Side, order: seq<ID>)
    requires w.ids.Valid() && Distinct(order)
    requires forall x :: x in order && InsertedId(cfg, w, x, to).Some? ==>
      InsertedId(cfg, w, x, to).value !in w.ids.View(to.Other()).bwd
    requires forall i, j :: 0 <= i < j < |order| && InsertedId(cfg, w, order[i], to).Some? ==>
      InsertedId(cfg, w, order[i], to) != InsertedId(cfg, w, order[j], to)
    ensures var r := Run(cfg, NewItems(to), w, order);
      && r.status != Fail(ValueDuplication)
      && r.world.ids.Valid()
      && r.world.Store(to.Other()) == w.Store(to.Other())
      && forall u :: u in r.world.ids.View(to.Other()).bwd ==>
           u in w.ids.View(to.Other()).bwd || exists x :: x in order && InsertedId(cfg, w, x, to) == Some(u)
    decreases |order|
  {
    if order != [] {
      var front := order[..|order| - 1];
      var last := order[|order| - 1];
      NewItemsFresh(cfg, w, to, front);
      var prev := Run(cfg, NewItems(to), w, front);
      if prev.status.Ok? {
        assert Converted(cfg, prev.world, last, to) == Converted(cfg, w, last, to);
        match InsertedId(cfg, w, last, to)
        case None =>
        case Some(k) =>
          assert k !in prev.world.ids.View(to.Other()).bwd;
      }
    }
  }
}

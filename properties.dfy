/**
 * Properties of a synchronization run that hold for every order the loops
 * over sets may take (item_synchronizer/synchronizer.py).
 */
module SyncProperties {
  import opened Types
  import opened Wrappers
  import opened Bimaps
  import opened Helpers
  import opened Resolution
  import opened SyncSpec

  // ---------------------------------------------------------------------------
  // Generic facts about the fold `Run`
  // ---------------------------------------------------------------------------

  /** An id a loop of `phase` may visit: a non-conflict loop only visits touched ids. */
  ghost predicate Visitable(phase: Phase, id: ID) {
    phase.NonConflicts? ==> id in phase.changes.Touched()
  }

  /** If no step can end in error `e`, no loop ends in `e`. */
  lemma {:induction false} RunAvoids<Item>(cfg: Config<Item>, phase: Phase, w: World<Item>, order: seq<ID>,
                                           e: Error)
    requires forall w': World<Item>, id :: Visitable(phase, id) ==>
      Step(cfg, phase, w', id).status != Fail(e)
    requires forall i :: 0 <= i < |order| ==> Visitable(phase, order[i])
    ensures Run(cfg, phase, w, order).status != Fail(e)
    decreases |order|
  {
    if order != [] {
      RunAvoids(cfg, phase, w, order[..|order| - 1], e);
    }
  }

  /**
   * An error no step of any of the five loops can raise, and that is not the
   * classification's `KeyError`, ends no run.
   */
  lemma SyncAvoids<Item>(cfg: Config<Item>, w: World<Item>, chA: SideChanges, chB: SideChanges, o: Orders,
                         e: Error)
    requires Admissible(cfg, w, chA, chB, o) && e != LookupMiss
    requires forall w': World<Item>, id :: Visitable(NewItems(SideB), id) ==>
      Step(cfg, NewItems(SideB), w', id).status != Fail(e)
    requires forall w': World<Item>, id :: Visitable(NewItems(SideA), id) ==>
      Step(cfg, NewItems(SideA), w', id).status != Fail(e)
    requires forall w': World<Item>, id :: Visitable(Conflicts(chA, chB), id) ==>
      Step(cfg, Conflicts(chA, chB), w', id).status != Fail(e)
    requires forall w': World<Item>, id :: Visitable(NonConflicts(SideB, chB), id) ==>
      Step(cfg, NonConflicts(SideB, chB), w', id).status != Fail(e)
    requires forall w': World<Item>, id :: Visitable(NonConflicts(SideA, chA), id) ==>
      Step(cfg, NonConflicts(SideA, chA), w', id).status != Fail(e)
    ensures SyncRun(cfg, w, chA, chB, o).status != Fail(e)
  {
    RunAvoids(cfg, NewItems(SideB), w, o.newA, e);
    var r1 := Run(cfg, NewItems(SideB), w, o.newA);
    RunAvoids(cfg, NewItems(SideA), r1.world, o.newB, e);
    var r := SyncNewItems(cfg, w, o.newA, o.newB);
    if r.status.Ok? && Classify(r.world.ids, chA, chB).Success? {
      var c := Classify(r.world.ids, chA, chB).value;
      assert c.nonConflictsB <= chB.Touched() && c.nonConflictsA <= chA.Touched();
      RunAvoids(cfg, Conflicts(chA, chB), r.world, o.conflicts, e);
      var r3 := Run(cfg, Conflicts(chA, chB), r.world, o.conflicts);
      RunAvoids(cfg, NonConflicts(SideB, chB), r3.world, o.nonConflictsB, e);
      var r4 := Run(cfg, NonConflicts(SideB, chB), r3.world, o.nonConflictsB);
      RunAvoids(cfg, NonConflicts(SideA, chA), r4.world, o.nonConflictsA, e);
    }
  }

  // ---------------------------------------------------------------------------
  // The correspondence stays a bijection
  // ---------------------------------------------------------------------------

  /** Every single step keeps the two views of the bidict mutual inverses. */
  lemma StepPreservesValid<Item>(cfg: Config<Item>, phase: Phase, w: World<Item>, id: ID)
    requires w.ids.Valid()
    ensures Step(cfg, phase, w, id).world.ids.Valid()
  {
  }

  lemma {:induction false} RunPreservesValid<Item>(cfg: Config<Item>, phase: Phase, w: World<Item>, order: seq<ID>)
    requires w.ids.Valid()
    ensures Run(cfg, phase, w, order).world.ids.Valid()
    decreases |order|
  {
    if order != [] {
      var prev := Run(cfg, phase, w, order[..|order| - 1]);
      RunPreservesValid(cfg, phase, w, order[..|order| - 1]);
      if prev.status.Ok? {
        StepPreservesValid(cfg, phase, prev.world, order[|order| - 1]);
      }
    }
  }

  /**
   * After a whole run, finished or aborted and whatever the loop orders, the
   * A-to-B and B-to-A views are still mutual inverses.
   */
  lemma SyncPreservesBijection<Item>(cfg: Config<Item>, w: World<Item>, chA: SideChanges, chB: SideChanges,
                                     o: Orders)
    requires w.ids.Valid()
    ensures SyncRun(cfg, w, chA, chB, o).world.ids.Valid()
  {
    RunPreservesValid(cfg, NewItems(SideB), w, o.newA);
    var r1 := Run(cfg, NewItems(SideB), w, o.newA);
    RunPreservesValid(cfg, NewItems(SideA), r1.world, o.newB);
    var r := SyncNewItems(cfg, w, o.newA, o.newB);
    if r.status.Ok? && Classify(r.world.ids, chA, chB).Success? {
      RunPreservesValid(cfg, Conflicts(chA, chB), r.world, o.conflicts);
      var r3 := Run(cfg, Conflicts(chA, chB), r.world, o.conflicts);
      RunPreservesValid(cfg, NonConflicts(SideB, chB), r3.world, o.nonConflictsB);
      var r4 := Run(cfg, NonConflicts(SideB, chB), r3.world, o.nonConflictsB);
      RunPreservesValid(cfg, NonConflicts(SideA, chA), r4.world, o.nonConflictsA);
    }
  }

  // ---------------------------------------------------------------------------
  // Statistics
  // ---------------------------------------------------------------------------

  /** No counter goes down, and the error counter never moves: nothing calls `TypeStats.error()`. */
  ghost predicate StatsGrow<Item>(w: World<Item>, w': World<Item>) {
    && w.statsA.Le(w'.statsA) && w.statsB.Le(w'.statsB)
    && w'.statsA.errors == w.statsA.errors && w'.statsB.errors == w.statsB.errors
  }

  lemma DeleteStatsGrow<Item>(cfg: Config<Item>, w: World<Item>, to: Side, id: ID)
    ensures StatsGrow(w, DeleteAndCount(cfg, w, to, id).world)
  {
  }

  lemma UpdateStatsGrow<Item>(cfg: Config<Item>, w: World<Item>, to: Side, id: ID, item: Option<Item>)
    ensures StatsGrow(w, ConvertNUpdate(cfg, w, to, id, item).world)
  {
  }

  lemma NewItemStatsGrow<Item>(cfg: Config<Item>, w: World<Item>, id: ID, to: Side)
    ensures StatsGrow(w, SyncNewItem(cfg, w, id, to).world)
  {
  }

  lemma ConflictStatsGrow<Item>(cfg: Config<Item>, w: World<Item>, chA: SideChanges, chB: SideChanges, idB: ID)
    ensures StatsGrow(w, ResolveConflict(cfg, w, chA, chB, idB).world)
  {
    match w.ids.Get(SideB, idB)
    case None =>
    case Some(idA) =>
      DeleteStatsGrow(cfg, w, SideA, idA);
      DeleteStatsGrow(cfg, w, SideB, idB);
      UpdateStatsGrow(cfg, w, SideA, idA, GetItem(w.storeB, idB));
      UpdateStatsGrow(cfg, w, SideB, idB, GetItem(w.storeA, idA));
  }

  lemma PropagateStatsGrow<Item>(cfg: Config<Item>, w: World<Item>, from: Side, ch: SideChanges, id: ID)
    ensures StatsGrow(w, PropagateChange(cfg, w, from, ch, id).world)
  {
    match w.ids.Get(from, id)
    case None =>
    case Some(other) =>
      DeleteStatsGrow(cfg, w, from.Other(), other);
      UpdateStatsGrow(cfg, w, from.Other(), other, GetItem(w.Store(from), id));
  }

  lemma StepStatsGrow<Item>(cfg: Config<Item>, phase: Phase, w: World<Item>, id: ID)
    ensures StatsGrow(w, Step(cfg, phase, w, id).world)
  {
    match phase
    case NewItems(to) => NewItemStatsGrow(cfg, w, id, to);
    case Conflicts(chA, chB) => ConflictStatsGrow(cfg, w, chA, chB, id);
    case NonConflicts(from, ch) => PropagateStatsGrow(cfg, w, from, ch, id);
  }

  lemma {:induction false} RunStatsGrow<Item>(cfg: Config<Item>, phase: Phase, w: World<Item>, order: seq<ID>)
    ensures StatsGrow(w, Run(cfg, phase, w, order).world)
    decreases |order|
  {
    if order != [] {
      var prev := Run(cfg, phase, w, order[..|order| - 1]);
      RunStatsGrow(cfg, phase, w, order[..|order| - 1]);
      if prev.status.Ok? {
        StepStatsGrow(cfg, phase, prev.world, order[|order| - 1]);
      }
    }
  }

  lemma SyncStatsGrow<Item>(cfg: Config<Item>, w: World<Item>, chA: SideChanges, chB: SideChanges, o: Orders)
    ensures StatsGrow(w, SyncRun(cfg, w, chA, chB, o).world)
  {
    RunStatsGrow(cfg, NewItems(SideB), w, o.newA);
    var r1 := Run(cfg, NewItems(SideB), w, o.newA);
    RunStatsGrow(cfg, NewItems(SideA), r1.world, o.newB);
    var r := SyncNewItems(cfg, w, o.newA, o.newB);
    RunStatsGrow(cfg, Conflicts(chA, chB), r.world, o.conflicts);
    var r3 := Run(cfg, Conflicts(chA, chB), r.world, o.conflicts);
    RunStatsGrow(cfg, NonConflicts(SideB, chB), r3.world, o.nonConflictsB);
    var r4 := Run(cfg, NonConflicts(SideB, chB), r3.world, o.nonConflictsB);
    RunStatsGrow(cfg, NonConflicts(SideA, chA), r4.world, o.nonConflictsA);
  }

  // ---------------------------------------------------------------------------
  // Conflict classification
  // ---------------------------------------------------------------------------

  /** Classification raises `KeyError` exactly when some touched id of either side has no correspondent. */
  lemma ClassifyFailsOnUnmapped(ids: Bimap, chA: SideChanges, chB: SideChanges)
    ensures Classify(ids, chA, chB).Failure? <==>
      (exists b :: b in chB.Touched() && ids.Get(SideB, b).None?) ||
      (exists a :: a in chA.Touched() && ids.Get(SideA, a).None?)
    ensures Classify(ids, chA, chB).Failure? ==> Classify(ids, chA, chB).error == LookupMiss
  {
    if exists b :: b in chB.Touched() && ids.Get(SideB, b).None? {
      var b :| b in chB.Touched() && ids.Get(SideB, b).None?;
      assert b !in ids.bwd.Keys;
    }
    if exists a :: a in chA.Touched() && ids.Get(SideA, a).None? {
      var a :| a in chA.Touched() && ids.Get(SideA, a).None?;
      assert a !in ids.fwd.Keys;
    }
  }

  /**
   * The three sets, element by element: a conflict is a B id touched on B
   * whose A correspondent was touched on A; a non-conflict of a side is a
   * touched id whose correspondent was not touched on the other side.
   */
  lemma ClassifyCharacterization(ids: Bimap, chA: SideChanges, chB: SideChanges)
    requires ids.Valid()
    requires Classify(ids, chA, chB).Success?
    ensures chB.Touched() <= ids.bwd.Keys && chA.Touched() <= ids.fwd.Keys
    ensures var c := Classify(ids, chA, chB).value;
      && (forall b :: b in c.conflicts <==> b in chB.Touched() && ids.bwd[b] in chA.Touched())
      && (forall b :: b in c.nonConflictsB <==> b in chB.Touched() && ids.bwd[b] !in chA.Touched())
      && (forall a :: a in c.nonConflictsA <==> a in chA.Touched() && ids.fwd[a] !in chB.Touched())
  {
    var tA, tB := chA.Touched(), chB.Touched();
    var tAInB := set a | a in tA :: ids.fwd[a];
    var tBInA := set b | b in tB :: ids.bwd[b];
    forall b | b in tB
      ensures b in tAInB <==> ids.bwd[b] in tA
    {
      if ids.bwd[b] in tA {
        assert ids.fwd[ids.bwd[b]] == b;
      }
    }
    forall a | a in tA
      ensures a in tBInA <==> ids.fwd[a] in tB
    {
      if ids.fwd[a] in tB {
        assert ids.bwd[ids.fwd[a]] == a;
      }
    }
  }

  /**
   * Each touched pair lands in exactly one loop: a touched B id is a conflict
   * or a B non-conflict, never both; a touched A id is an A non-conflict
   * exactly when its correspondent is not a conflict.
   */
  lemma ClassifyPartitions(ids: Bimap, chA: SideChanges, chB: SideChanges)
    requires ids.Valid()
    requires Classify(ids, chA, chB).Success?
    ensures var c := Classify(ids, chA, chB).value;
      && c.conflicts !! c.nonConflictsB
      && c.conflicts + c.nonConflictsB == chB.Touched()
      && (forall a :: a in chA.Touched() ==> (a in c.nonConflictsA <==> ids.fwd[a] !in c.conflicts))
      && (forall b :: b in c.conflicts ==> ids.bwd[b] in chA.Touched() && ids.bwd[b] !in c.nonConflictsA)
  {
    ClassifyCharacterization(ids, chA, chB);
  }

  /**
   * In every run that reaches the conflict loop, each conflicting pair is
   * resolved exactly once, and neither non-conflict loop visits it.
   */
  lemma ConflictHandledOnce<Item>(cfg: Config<Item>, w: World<Item>, chA: SideChanges, chB: SideChanges,
                                  o: Orders, b: ID)
    requires w.ids.Valid()
    requires Admissible(cfg, w, chA, chB, o)
    requires SyncNewItems(cfg, w, o.newA, o.newB).status.Ok?
    requires var ids := SyncNewItems(cfg, w, o.newA, o.newB).world.ids;
      Classify(ids, chA, chB).Success? && b in Classify(ids, chA, chB).value.conflicts
    ensures var ids := SyncNewItems(cfg, w, o.newA, o.newB).world.ids;
      && multiset(o.conflicts)[b] == 1
      && b !in o.nonConflictsB
      && ids.bwd[b] !in o.nonConflictsA
  {
    var r1 := Run(cfg, NewItems(SideB), w, o.newA);
    RunPreservesValid(cfg, NewItems(SideB), w, o.newA);
    RunPreservesValid(cfg, NewItems(SideA), r1.world, o.newB);
    var ids := SyncNewItems(cfg, w, o.newA, o.newB).world.ids;
    ClassifyPartitions(ids, chA, chB);
    EnumCountsOnce(o.conflicts, Classify(ids, chA, chB).value.conflicts, b);
  }

  /** An enumeration holds each element of its set once. */
  lemma {:induction false} EnumCountsOnce(order: seq<ID>, s: set<ID>, x: ID)
    requires IsEnum(order, s) && x in s
    ensures multiset(order)[x] == 1
    decreases |order|
  {
    var last := order[|order| - 1];
    var front := order[..|order| - 1];
    assert order == front + [last];
    assert IsEnum(front, s - {last}) by {
      forall y ensures y in front <==> y in s - {last} {
        if y in front {
          var i :| 0 <= i < |front| && front[i] == y;
          assert order[i] == y && order[|order| - 1] == last;
        }
        if y in s - {last} {
          assert y in order;
          var i :| 0 <= i < |order| && order[i] == y;
          assert i != |order| - 1;
          assert front[i] == y;
        }
      }
    }
    if x == last {
      assert x !in front;
      assert multiset(front)[x] == 0;
    } else {
      EnumCountsOnce(front, s - {last}, x);
    }
  }

  // ---------------------------------------------------------------------------
  // Correspondence lookups after classification
  // ---------------------------------------------------------------------------

  /** The side whose identifiers a loop runs over. */
  function LoopSide(phase: Phase): Side {
    match phase
    case NewItems(to) => to.Other()
    case Conflicts(_, _) => SideB
    case NonConflicts(from, _) => from
  }

  /** Every pair of view `side` whose key is not `except` is still there in `m'`. */
  ghost predicate Keeps(m: Bimap, m': Bimap, side: Side, except: ID) {
    forall k :: k != except && m.Get(side, k).Some? ==> m'.Get(side, k) == m.Get(side, k)
  }

  /** Popping a pair, from either view, leaves every other pair alone. */
  lemma PopKeeps(m: Bimap, view: Side, x: ID, side: Side, key: ID)
    requires m.Valid() && m.Get(view, x).Some?
    requires (side == view && key == x) || (side == view.Other() && key == m.Get(view, x).value)
    ensures m.Pop(side, key).Some?
    ensures Keeps(m, m.Pop(side, key).value, view, x)
  {
    var y := m.Get(view, x).value;
    MutualInverse(m, view, x, y);
    var p := m.Pop(side, key).value;
    if side != view {
      forall k | k != x && m.Get(view, k).Some?
        ensures p.Get(view, k) == m.Get(view, k)
      {
        var v := m.Get(view, k).value;
        MutualInverse(m, view, k, v);
        assert v != y;
        MutualInverse(p, side, v, k);
      }
    }
  }

  /** A deletion through either view of a pair leaves every other pair of that view alone. */
  lemma DeleteKeeps<Item>(cfg: Config<Item>, w: World<Item>, to: Side, key: ID, view: Side, x: ID)
    requires w.ids.Valid() && w.ids.Get(view, x).Some?
    requires (to == view && key == x) || (to == view.Other() && key == w.ids.Get(view, x).value)
    ensures Keeps(w.ids, DeleteAndCount(cfg, w, to, key).world.ids, view, x)
  {
    PopKeeps(w.ids, view, x, to, key);
  }

  lemma ConflictKeeps<Item>(cfg: Config<Item>, w: World<Item>, chA: SideChanges, chB: SideChanges, idB: ID)
    requires w.ids.Valid()
    ensures Keeps(w.ids, ResolveConflict(cfg, w, chA, chB, idB).world.ids, SideB, idB)
  {
    match w.ids.Get(SideB, idB)
    case None =>
    case Some(idA) =>
      PopKeeps(w.ids, SideB, idB, SideB, idB);
      PopKeeps(w.ids, SideB, idB, SideA, idA);
      DeleteKeeps(cfg, w, SideB, idB, SideB, idB);
      DeleteKeeps(cfg, w, SideA, idA, SideB, idB);
  }

  lemma PropagateKeeps<Item>(cfg: Config<Item>, w: World<Item>, from: Side, ch: SideChanges, id: ID)
    requires w.ids.Valid()
    ensures Keeps(w.ids, PropagateChange(cfg, w, from, ch, id).world.ids, from, id)
  {
    match w.ids.Get(from, id)
    case None =>
    case Some(other) =>
      DeleteKeeps(cfg, w, from.Other(), other, from, id);
  }

  /** A conflict or non-conflict step for `id` touches no other pair of the view it runs over. */
  lemma StepKeeps<Item>(cfg: Config<Item>, phase: Phase, w: World<Item>, id: ID)
    requires !phase.NewItems? && w.ids.Valid()
    ensures Keeps(w.ids, Step(cfg, phase, w, id).world.ids, LoopSide(phase), id)
  {
    match phase
    case Conflicts(chA, chB) => ConflictKeeps(cfg, w, chA, chB, id);
    case NonConflicts(from, ch) => PropagateKeeps(cfg, w, from, ch, id);
  }

  /** A conflict or non-conflict loop keeps every pair whose key it has not visited. */
  lemma {:induction false} RunKeeps<Item>(cfg: Config<Item>, phase: Phase, w: World<Item>, order: seq<ID>)
    requires !phase.NewItems? && w.ids.Valid()
    ensures forall k :: k !in order && w.ids.Get(LoopSide(phase), k).Some? ==>
      Run(cfg, phase, w, order).world.ids.Get(LoopSide(phase), k) == w.ids.Get(LoopSide(phase), k)
    decreases |order|
  {
    if order != [] {
      var front := order[..|order| - 1];
      var prev := Run(cfg, phase, w, front);
      RunKeeps(cfg, phase, w, front);
      RunPreservesValid(cfg, phase, w, front);
      if prev.status.Ok? {
        StepKeeps(cfg, phase, prev.world, order[|order| - 1]);
      }
    }
  }

  /** A step whose id is mapped does not raise `KeyError` on a correspondence lookup. */
  lemma StepNoMiss<Item>(cfg: Config<Item>, phase: Phase, w: World<Item>, id: ID)
    requires !phase.NewItems? && w.ids.Valid() && w.ids.Get(LoopSide(phase), id).Some?
    ensures Step(cfg, phase, w, id).status != Fail(LookupMiss)
  {
    MutualInverse(w.ids, LoopSide(phase), id, w.ids.Get(LoopSide(phase), id).value);
  }

  /** A loop over distinct ids that are all mapped when it starts never misses a lookup. */
  lemma {:induction false} RunNoMiss<Item>(cfg: Config<Item>, phase: Phase, w: World<Item>, order: seq<ID>)
    requires !phase.NewItems? && w.ids.Valid() && Distinct(order)
    requires forall i :: 0 <= i < |order| ==> w.ids.Get(LoopSide(phase), order[i]).Some?
    ensures Run(cfg, phase, w, order).status != Fail(LookupMiss)
    decreases |order|
  {
    if order != [] {
      var front := order[..|order| - 1];
      var last := order[|order| - 1];
      var prev := Run(cfg, phase, w, front);
      RunNoMiss(cfg, phase, w, front);
      if prev.status.Ok? {
        RunKeeps(cfg, phase, w, front);
        RunPreservesValid(cfg, phase, w, front);
        StepNoMiss(cfg, phase, prev.world, last);
      }
    }
  }

  /**
   * A new-item step can only end in a value duplication or, when exceptions
   * are not caught, in a converter's or an inserter's failure.
   */
  lemma NewItemsAvoid<Item>(cfg: Config<Item>, to: Side, e: Error)
    requires e != ValueDuplication && ((e == InsertRaised || e == ConvertRaised) ==> cfg.catchExceptions)
    ensures forall w': World<Item>, id :: Visitable(NewItems(to), id) ==>
      Step(cfg, NewItems(to), w', id).status != Fail(e)
  {
    forall w': World<Item>, id | Visitable(NewItems(to), id)
      ensures Step(cfg, NewItems(to), w', id).status != Fail(e)
    {
    }
  }

  /** A new-items loop never fails on a correspondence lookup. */
  lemma NewItemsNoMiss<Item>(cfg: Config<Item>, w: World<Item>, newA: seq<ID>, newB: seq<ID>)
    ensures SyncNewItems(cfg, w, newA, newB).status != Fail(LookupMiss)
  {
    NewItemsAvoid(cfg, SideB, LookupMiss);
    NewItemsAvoid(cfg, SideA, LookupMiss);
    RunAvoids(cfg, NewItems(SideB), w, newA, LookupMiss);
    var r := Run(cfg, NewItems(SideB), w, newA);
    RunAvoids(cfg, NewItems(SideA), r.world, newB, LookupMiss);
  }

  /**
   * The only `KeyError` a run from a bijective correspondence can raise from
   * a lookup is the one of the classification (lines 183 and 185): the
   * three loops after it only look up pairs that are still there.
   */
  lemma LookupMissOnlyInClassify<Item>(cfg: Config<Item>, w: World<Item>, chA: SideChanges, chB: SideChanges,
                                       o: Orders)
    requires w.ids.Valid()
    requires Admissible(cfg, w, chA, chB, o)
    ensures var r := SyncNewItems(cfg, w, o.newA, o.newB);
      SyncRun(cfg, w, chA, chB, o).status == Fail(LookupMiss) ==>
        r.status.Ok? && Classify(r.world.ids, chA, chB).Failure? && SyncRun(cfg, w, chA, chB, o).world == r.world
  {
    NewItemsNoMiss(cfg, w, o.newA, o.newB);
    var r := SyncNewItems(cfg, w, o.newA, o.newB);
    if r.status.Ok? && Classify(r.world.ids, chA, chB).Success? {
      RunPreservesValid(cfg, NewItems(SideB), w, o.newA);
      RunPreservesValid(cfg, NewItems(SideA), Run(cfg, NewItems(SideB), w, o.newA).world, o.newB);
      var w2 := r.world;
      var c := Classify(w2.ids, chA, chB).value;
      ClassifyCharacterization(w2.ids, chA, chB);
      var p3 := Conflicts(chA, chB);
      RunNoMiss(cfg, p3, w2, o.conflicts);
      var r3 := Run(cfg, p3, w2, o.conflicts);
      RunPreservesValid(cfg, p3, w2, o.conflicts);
      RunKeeps(cfg, p3, w2, o.conflicts);
      var w3 := r3.world;
      var p4 := NonConflicts(SideB, chB);
      forall i | 0 <= i < |o.nonConflictsB|
        ensures w3.ids.Get(SideB, o.nonConflictsB[i]).Some?
      {
        var b := o.nonConflictsB[i];
        assert b in c.nonConflictsB;
        assert b !in o.conflicts;
      }
      RunNoMiss(cfg, p4, w3, o.nonConflictsB);
      var r4 := Run(cfg, p4, w3, o.nonConflictsB);
      RunPreservesValid(cfg, p4, w3, o.nonConflictsB);
      RunKeeps(cfg, p4, w3, o.nonConflictsB);
      var w4 := r4.world;
      var p5 := NonConflicts(SideA, chA);
      forall i | 0 <= i < |o.nonConflictsA|
        ensures w4.ids.Get(SideA, o.nonConflictsA[i]).Some?
      {
        var a := o.nonConflictsA[i];
        assert a in c.nonConflictsA;
        var b := w2.ids.fwd[a];
        MutualInverse(w2.ids, SideA, a, b);
        assert b !in chB.Touched();
        assert b !in o.conflicts && b !in o.nonConflictsB;
        MutualInverse(w4.ids, SideB, b, a);
      }
      RunNoMiss(cfg, p5, w4, o.nonConflictsA);
    }
  }
}

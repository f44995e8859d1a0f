/**
 * `Synchronizer` (item_synchronizer/synchronizer.py), imperative: it updates
 * both stores, the shared correspondence and its two `TypeStats` in place.
 * Each method ends in exactly the state the matching function of SyncSpec
 * gives for the state it started in.
 */
module Synchronizer {
  import opened Types
  import opened Wrappers
  import opened Bimaps
  import opened Helpers
  import opened Resolution
  import opened SyncSpec

  class Synchronizer<Item> {
    /** The stores the callbacks of the test harness insert into, update and delete from. */
    var storeA: map<ID, Item>
    var storeB: map<ID, Item>
    /** The caller's bidict; `_A_to_B` and `_B_to_A` are its two views. */
    const corr: Correspondence
    const cfg: Config<Item>
    /** `_stats[0]` and `_stats[1]`. */
    const statsA: TypeStats
    const statsB: TypeStats

    ghost function State(): World<Item>
      reads this, corr, statsA, statsB
    {
      World(storeA, storeB, corr.Value(), statsA.Value(), statsB.Value())
    }

    ghost predicate Valid()
      reads this, corr
    {
      statsA != statsB && corr.Valid()
    }

    function StoreOf(side: Side): (s: map<ID, Item>)
      reads this
      ensures s == State().Store(side)
    {
      if side == SideA then storeA else storeB
    }

    constructor (aToB: Correspondence, storeA: map<ID, Item>, storeB: map<ID, Item>,
                 inserterToA: Item -> Option<ID>, inserterToB: Item -> Option<ID>,
                 converterToA: Item -> Conversion<Item>, converterToB: Item -> Conversion<Item>,
                 resolutionStrategy: Strategy<Item>, catchExceptions: bool,
                 sideNames: (string, string) := ("A Side", "B Side"))
      requires aToB.Valid()
      ensures Valid() && corr == aToB && fresh(statsA) && fresh(statsB)
      ensures cfg == Config(converterToA, converterToB, inserterToA, inserterToB,
                            resolutionStrategy, catchExceptions)
      ensures State() == World(storeA, storeB, aToB.Value(), Zero, Zero)
      ensures statsA.title == sideNames.0 && statsB.title == sideNames.1
    {
      this.storeA := storeA;
      this.storeB := storeB;
      corr := aToB;
      cfg := Config(converterToA, converterToB, inserterToA, inserterToB,
                    resolutionStrategy, catchExceptions);
      statsA := new TypeStats(sideNames.0);
      statsB := new TypeStats(sideNames.1);
    }

    /** `_convert_n_insert(id, to)`: the new identifier, if an item was inserted. */
    method ConvertNInsert(id: ID, to: Side) returns (newId: Option<ID>, st: Status)
      requires Valid()
      modifies this, statsA, statsB
      ensures Valid()
      ensures Insertion(State(), newId, st) == SyncSpec.ConvertNInsert(cfg, old(State()), id, to)
    {
      var item := GetItem(StoreOf(to.Other()), id);
      if item.None? {
        return None, Ok;
      }
      var converted := cfg.Convert(to, item.value);
      if converted.Failure? {
        return None, Fail(converted.error);
      }
      if converted.value.None? {
        return None, Ok;
      }
      var x := converted.value.value;
      newId := cfg.Inserter(to)(x);
      if newId.Some? {
        if to == SideA {
          storeA := storeA[newId.value := x];
        } else {
          storeB := storeB[newId.value := x];
        }
      } else if !cfg.catchExceptions {
        return None, Fail(InsertRaised);
      }
      if to == SideA {
        statsA.CreateNew();
      } else {
        statsB.CreateNew();
      }
      st := Ok;
    }

    /** One iteration of `_sync_new_items`: insert, then record the pair. */
    method SyncNewItem(id: ID, to: Side) returns (st: Status)
      requires Valid()
      modifies this, corr, statsA, statsB
      ensures Valid()
      ensures Outcome(State(), st) == SyncSpec.SyncNewItem(cfg, old(State()), id, to)
    {
      var newId;
      newId, st := ConvertNInsert(id, to);
      if st.Fail? || newId.None? {
        return;
      }
      var ok := corr.Put(to.Other(), id, newId.value);
      st := if ok then Ok else Fail(ValueDuplication);
    }

    /** `_convert_n_update_to_A/B(id, item)`. */
    method ConvertNUpdate(to: Side, id: ID, item: Option<Item>) returns (st: Status)
      requires Valid()
      modifies this, statsA, statsB
      ensures Valid()
      ensures Outcome(State(), st) == SyncSpec.ConvertNUpdate(cfg, old(State()), to, id, item)
    {
      if item.None? {
        return Fail(MissingItem);
      }
      var converted := cfg.Convert(to, item.value);
      if converted.Failure? {
        return Fail(converted.error);
      }
      if converted.value.None? {
        return Ok;
      }
      var y := converted.value.value;
      if to == SideA {
        storeA := storeA[id := y];
        statsA.Update();
      } else {
        storeB := storeB[id := y];
        statsB.Update();
      }
      st := Ok;
    }

    /** `_deleter_to_A/B(id)`: `delete_n_pop` in place, wrapped by `_decide_catch_exc`. */
    method Delete(to: Side, id: ID) returns (st: Status)
      requires Valid()
      modifies this, corr
      ensures Valid()
      ensures Outcome(State(), st) == WrappedDelete(cfg, old(State()), to, id)
    {
      var outcome;
      if id !in StoreOf(to) {
        outcome := DeleterRaised;
      } else {
        if to == SideA {
          storeA := storeA - {id};
        } else {
          storeB := storeB - {id};
        }
        var ok := corr.Pop(to, id);
        outcome := if ok then Done else PopRaised;
      }
      st := if outcome != Done && !cfg.catchExceptions then Fail(DeleteRaised) else Ok;
    }

    /** `_deleter_to_A/B(id)` followed by `_stats[side].delete()`. */
    method DeleteAndCount(to: Side, id: ID) returns (st: Status)
      requires Valid()
      modifies this, corr, statsA, statsB
      ensures Valid()
      ensures Outcome(State(), st) == SyncSpec.DeleteAndCount(cfg, old(State()), to, id)
    {
      st := Delete(to, id);
      if st.Fail? {
        return;
      }
      if to == SideA {
        statsA.Delete();
      } else {
        statsB.Delete();
      }
    }

    /** `view.pop(id)` for an item both sides already deleted. */
    method PopOnly(side: Side, id: ID) returns (st: Status)
      requires Valid()
      modifies corr
      ensures Valid()
      ensures Outcome(State(), st) == SyncSpec.PopOnly(old(State()), side, id)
    {
      var ok := corr.Pop(side, id);
      st := if ok then Ok else Fail(LookupMiss);
    }

    /** One iteration of the conflict loop (lines 222-250). */
    method ResolveConflict(chA: SideChanges, chB: SideChanges, idB: ID) returns (st: Status)
      requires Valid()
      modifies this, corr, statsA, statsB
      ensures Valid()
      ensures Outcome(State(), st) == SyncSpec.ResolveConflict(cfg, old(State()), chA, chB, idB)
    {
      var found := corr.Value().Get(SideB, idB);
      if found.None? {
        return Fail(LookupMiss);
      }
      var idA := found.value;
      var itemB := GetItem(storeB, idB);
      var itemA := GetItem(storeA, idA);
      var result := cfg.strategy.Resolve(itemA, itemB);
      if result.id == Mix {
        st := Fail(MixUnsupported);
      } else if result.id == A {
        if itemA.None? {
          if idB in chB.deleted {
            st := PopOnly(SideB, idB);
          } else {
            st := DeleteAndCount(SideB, idB);
          }
        } else {
          st := ConvertNUpdate(SideB, idB, itemA);
        }
      } else {
        if itemB.None? {
          if idA in chA.deleted {
            st := PopOnly(SideA, idA);
          } else {
            st := DeleteAndCount(SideA, idA);
          }
        } else {
          st := ConvertNUpdate(SideA, idA, itemB);
        }
      }
    }

    /** One iteration of a non-conflict loop (lines 256-275). */
    method PropagateChange(from: Side, ch: SideChanges, id: ID) returns (st: Status)
      requires Valid()
      modifies this, corr, statsA, statsB
      ensures Valid()
      ensures Outcome(State(), st) == SyncSpec.PropagateChange(cfg, old(State()), from, ch, id)
    {
      var found := corr.Value().Get(from, id);
      if found.None? {
        return Fail(LookupMiss);
      }
      var other := found.value;
      if id in ch.modified {
        var item := GetItem(StoreOf(from), id);
        st := ConvertNUpdate(from.Other(), other, item);
      } else if id in ch.deleted {
        st := DeleteAndCount(from.Other(), other);
      } else {
        st := Fail(Unclassified);
      }
    }

    method Step(phase: Phase, id: ID) returns (st: Status)
      requires Valid()
      modifies this, corr, statsA, statsB
      ensures Valid()
      ensures Outcome(State(), st) == SyncSpec.Step(cfg, phase, old(State()), id)
    {
      match phase
      case NewItems(to) => st := SyncNewItem(id, to);
      case Conflicts(chA, chB) => st := ResolveConflict(chA, chB, id);
      case NonConflicts(from, ch) => st := PropagateChange(from, ch, id);
    }

    /**
     * A `for id in ids` loop of the source, over `phase`'s body; it stops at
     * the first failure. `order` is the order the loop visited `ids` in,
     * completed by the ids it never reached.
     */
    method RunPhase(phase: Phase, ids: set<ID>) returns (st: Status, ghost order: seq<ID>)
      requires Valid()
      modifies this, corr, statsA, statsB
      ensures Valid()
      ensures IsEnum(order, ids)
      ensures Outcome(State(), st) == Run(cfg, phase, old(State()), order)
    {
      ghost var w0 := State();
      var remaining := ids;
      order := [];
      st := Ok;
      while remaining != {}
        invariant Valid()
        invariant remaining <= ids
        invariant IsEnum(order, ids - remaining)
        invariant st.Ok?
        invariant Outcome(State(), st) == Run(cfg, phase, w0, order)
        decreases remaining
      {
        var id :| id in remaining;
        RunSnoc(cfg, phase, w0, order, id);
        IsEnumSnoc(order, ids - remaining, id);
        assert ids - remaining + {id} == ids - (remaining - {id});
        st := Step(phase, id);
        remaining := remaining - {id};
        order := order + [id];
        if st.Fail? {
          ghost var rest := Enumerate(remaining);
          RunStopsAtFailure(cfg, phase, w0, order, rest);
          IsEnumAppend(order, rest, ids - remaining, remaining);
          assert ids - remaining + remaining == ids;
          order := order + rest;
          return;
        }
      }
      assert ids - remaining == ids;
    }

    /** `_sync_new_items(changes_A, changes_B)`. */
    method SyncNewItems(chA: SideChanges, chB: SideChanges) returns (st: Status, ghost newA: seq<ID>, ghost newB: seq<ID>)
      requires Valid()
      modifies this, corr, statsA, statsB
      ensures Valid()
      ensures IsEnum(newA, chA.added) && IsEnum(newB, chB.added)
      ensures Outcome(State(), st) == SyncSpec.SyncNewItems(cfg, old(State()), newA, newB)
    {
      st, newA := RunPhase(NewItems(SideB), chA.added);
      if st.Fail? {
        newB := Enumerate(chB.added);
        return;
      }
      st, newB := RunPhase(NewItems(SideA), chB.added);
    }

    /** `_sync(changes_A, changes_B)`: new items, conflict detection, conflicts, then the rest. */
    method SyncChanges(chA: SideChanges, chB: SideChanges) returns (st: Status, ghost orders: Orders)
      requires Valid()
      modifies this, corr, statsA, statsB
      ensures Valid()
      ensures Admissible(cfg, old(State()), chA, chB, orders)
      ensures Outcome(State(), st) == SyncRun(cfg, old(State()), chA, chB, orders)
    {
      ghost var newA, newB;
      st, newA, newB := SyncNewItems(chA, chB);
      if st.Fail? {
        orders := Orders(newA, newB, [], [], []);
        return;
      }
      var classified := Classify(corr.Value(), chA, chB);
      if classified.Failure? {
        st := Fail(classified.error);
        orders := Orders(newA, newB, [], [], []);
        return;
      }
      var c := classified.value;
      ghost var conflicts, restB, restA;
      st, conflicts := RunPhase(Conflicts(chA, chB), c.conflicts);
      if st.Fail? {
        orders := Orders(newA, newB, conflicts, Enumerate(c.nonConflictsB), Enumerate(c.nonConflictsA));
        return;
      }
      st, restB := RunPhase(NonConflicts(SideB, chB), c.nonConflictsB);
      if st.Fail? {
        orders := Orders(newA, newB, conflicts, restB, Enumerate(c.nonConflictsA));
        return;
      }
      st, restA := RunPhase(NonConflicts(SideA, chA), c.nonConflictsA);
      orders := Orders(newA, newB, conflicts, restB, restA);
    }

    /**
     * `sync(changes_A, changes_B)`: runs `_sync` and, whether it finished or
     * raised, reports both sides' counters (the `finally` at lines 154-155).
     */
    method Sync(chA: SideChanges, chB: SideChanges)
      returns (st: Status, reportA: Counters, reportB: Counters, ghost orders: Orders)
      requires Valid()
      modifies this, corr, statsA, statsB
      ensures Valid()
      ensures Admissible(cfg, old(State()), chA, chB, orders)
      ensures Outcome(State(), st) == SyncRun(cfg, old(State()), chA, chB, orders)
      ensures reportA == State().statsA && reportB == State().statsB
    {
      st, orders := SyncChanges(chA, chB);
      reportA := statsA.Value();
      reportB := statsB.Value();
    }
  }
}

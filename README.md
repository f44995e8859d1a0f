# item_synchronizer in Dafny

A model of the reconciliation engine of `item_synchronizer`, with proofs about it.

`Synchronizer.sync` receives the changes each side saw since the last run: the ids that are new, modified or deleted. It then runs three steps:

1. It copies new items to the other side and records each new pair in a bidirectional A↔B map (a `bidict` and its inverse view).
2. It maps each side's touched ids (modified or deleted) through that map and splits them into conflicts and non-conflicts.
3. It settles each conflict with a resolution strategy, then propagates the remaining modifications and deletions. Throughout, it keeps the map and two per-side counters (`TypeStats`) up to date.

The project has these modules:

- `Types` and `Wrappers`: the identifier type, the two sides, `Option` and `Result`.
- `Bimaps`:
  - `Bimap` is the bidict as a pair of maps, together with its bijection invariant. `View`, `Get`, `Set` and `Pop` are the operations of either view.
  - `Correspondence` is the caller-owned bidict as a class that is mutated in place.
- `Helpers`: `SideChanges`, the getter wrapper that turns a `KeyError` into `None`, `delete_n_pop`, and the `TypeStats` counters. `TypeStats` is a class whose methods bump its fields.
- `Resolution`: the resolution strategies, as a datatype with a pure `Resolve`.
- `SyncSpec`: the meaning of each step of a run, as functions of the state before it.
  - Every loop of the source runs over a set, in an order the language leaves open. So each loop is a fold `Run` over some enumeration of its set.
  - `SyncRun` chains the five loops and the classification between them.
- `Synchronizer`: the class itself, as imperative code.
  - It holds both stores, the correspondence and both counters.
  - Its loops pick ids from the set that remains. Each method is proved to end in exactly the state `SyncSpec` gives, for the order the method actually took. That order is a ghost out-parameter.
- `SyncProperties` and `SyncScenarios`: properties that hold for every order. Examples:
  - the correspondence stays a bijection;
  - counters only grow;
  - the conflict set is exactly what it should be;
  - each conflict is handled once;
  - only the classification can miss a lookup;
  - the "Programmatic Error" branches are unreachable;
  - each conflict and non-conflict case does what the code does;
  - the conflict each of the repository's conflict tests sets up is resolved the way that test expects;
  - new items end up mapped and stored.

The store callbacks are the ones in the repository's test harness:

- stores are `map<ID, Item>`;
- an updater writes `store[id]`;
- a deleter removes `store[id]` and raises `KeyError` when the id is missing;
- a getter is a lookup whose miss becomes `None`.

Converters and inserters are parameters:

- a converter answers `Produced(item)`, declines with `Declined` (the source's `None`), or raises (`ConverterFailed`);
- an inserter is `Item -> Option<ID>`. It follows the contract of `InserterFn` (item_synchronizer/types.py:11-13): it answers the identifier of the newly added item, under which the item is stored. `None` means it raised.

Every exception the model lets end a run is a value of `SyncSpec.Error`. `catchExceptions` decides whether an inserter's, converter's or deleter's failure is swallowed or ends the run. Updater failures are not modelled (see "## Left out").

## Model

| member | source | states |
|---|---|---|
| Bimaps.Bimap.View | item_synchronizer/synchronizer.py:62-63 | `_B_to_A` is the same bidict with its two directions swapped; the bijection invariant holds for one view exactly when it holds for the other |
| Bimaps.Bimap.Get | item_synchronizer/synchronizer.py:183-185 | a lookup succeeds exactly when the key is bound in that view, and then answers the bound id; a miss is the `KeyError` |
| Bimaps.Bimap.Set | item_synchronizer/synchronizer.py:174 | refused exactly when the value is already bound to another key. Otherwise the pair is bound in both views, the result is still a bijection, every other key keeps its value, and no value appears except the new one |
| Bimaps.Bimap.Pop | item_synchronizer/synchronizer.py:235 | fails exactly when the key is unbound. Otherwise the pair disappears from both views, the result is still a bijection, and every other key keeps its value |
| Bimaps.PopEitherView | item_synchronizer/synchronizer.py:231-248 | popping a pair through `_B_to_A` or through `_A_to_B` gives the same bidict |
| Bimaps.Correspondence.constructor | item_synchronizer/synchronizer.py:62-63 | the shared bidict starts as the caller's bijective mapping |
| Bimaps.Correspondence.Put | item_synchronizer/synchronizer.py:174 | in-place assignment through either view. It succeeds exactly when `Bimap.Set` does, ends in `Set`'s result or leaves the bidict unchanged, and keeps the bijection |
| Bimaps.Correspondence.Pop | item_synchronizer/synchronizer.py:235 | in-place pop through either view. It succeeds exactly when `Bimap.Pop` does, ends in its result or leaves the bidict unchanged, and keeps the bijection |
| Helpers.SideChanges.Touched | item_synchronizer/synchronizer.py:182 | an id is touched exactly when it is modified or deleted |
| Helpers.NoChanges | item_synchronizer/helpers.py:17-19 | a default `SideChanges` has three empty, pairwise disjoint sets and touches nothing |
| Helpers.Lookup | tests/test_synchronizer.py:68-72 | the harness getter answers the stored item, or `KeyError` for a missing id |
| Helpers.HandleKeyError | item_synchronizer/helpers.py:37-41 | the wrapped getter answers `None` exactly when the raw getter raised `KeyError`; an item passes through unchanged, and any other error propagates |
| Helpers.GetItem | item_synchronizer/helpers.py:34-43 | a wrapped harness getter answers `None` exactly for a missing id, and the stored item otherwise |
| Helpers.DeleteNPop | item_synchronizer/helpers.py:50-52 | the deleter removes exactly the id from the store. If the deleter raised, the store and map are unchanged. Popping an unbound id raises `KeyError` after the deletion. Completion means the id was stored and bound, and the map is then the bidict with that pair popped |
| Helpers.Counters.Bump | item_synchronizer/helpers.py:70-84 | one event raises its own counter by one and leaves the other three alone |
| Helpers.TypeStats.constructor | item_synchronizer/helpers.py:60-66 | a new `TypeStats` has all four counters at 0 |
| Helpers.TypeStats.CreateNew | item_synchronizer/helpers.py:70-72 | `create_new` bumps only the created counter |
| Helpers.TypeStats.Update | item_synchronizer/helpers.py:74-76 | `update` bumps only the updated counter |
| Helpers.TypeStats.Delete | item_synchronizer/helpers.py:78-80 | `delete` bumps only the deleted counter |
| Helpers.TypeStats.Error | item_synchronizer/helpers.py:82-84 | `error` bumps only the error counter |
| Resolution.Strategy.CanResolve | item_synchronizer/resolution_strategy.py:52-57 | every built-in strategy is ready to resolve |
| Resolution.Strategy.Resolve | item_synchronizer/resolution_strategy.py:97-158 | a built-in strategy never answers `Mix`, and its item is the input of the side it names; AlwaysFirst always names A and AlwaysSecond always names B |
| Resolution.RecencyResolve | item_synchronizer/resolution_strategy.py:97-110 | two absent items resolve to A; a single absent item loses to the present one whatever the dates; two present items resolve to A exactly when the date comparison holds; never `Mix` |
| Resolution.RecencyPicksByDate | tests/test_resolution_strategy.py:33-54 | with distinct dates, MostRecent returns the later item and LeastRecent the earlier one |
| Resolution.RecencyTieFavoursA | item_synchronizer/resolution_strategy.py:117-142 | `>=` and `<=` make equal dates resolve to A under both recency strategies |
| Resolution.RecencyPresenceWins | item_synchronizer/resolution_strategy.py:99-104 | under a recency strategy a deletion never beats a present item, and two deletions give `(A, None)` |
| Resolution.FixedSideStrategies | item_synchronizer/resolution_strategy.py:145-158 | AlwaysFirst gives `(A, item_A)` and AlwaysSecond `(B, item_B)` for every input, absent ones included |
| SyncSpec.Config.Convert | item_synchronizer/synchronizer.py:70-71 | the converter as `_decide_catch_exc` wraps it: it fails, with `ConvertRaised`, exactly when the converter raised and exceptions are not caught; it answers `None` exactly when the converter declined or its failure was caught; it answers the converter's item otherwise |
| SyncSpec.RunStopsAtFailure | item_synchronizer/synchronizer.py:222-275 | once a loop has raised, the ids after the failing one change nothing |
| Synchronizer.Synchronizer.constructor | item_synchronizer/synchronizer.py:42-75 | both views share the caller's bidict; the callbacks, strategy and catch flag are recorded; both counters are fresh and at zero, titled with the side names, which default to "A Side" and "B Side" |
| Synchronizer.Synchronizer.ConvertNInsert | item_synchronizer/synchronizer.py:99-124 | fetch, convert and insert in place; the new stores, counters and returned id are those of `SyncSpec.ConvertNInsert` |
| Synchronizer.Synchronizer.SyncNewItem | item_synchronizer/synchronizer.py:168-174 | one new id: insert, then bind it in the origin side's view. Ends in `SyncSpec.SyncNewItem`'s state and keeps the bijection |
| Synchronizer.Synchronizer.ConvertNUpdate | item_synchronizer/synchronizer.py:126-142 | assert the item, convert it, write it and count the update; ends in `SyncSpec.ConvertNUpdate`'s state |
| Synchronizer.Synchronizer.Delete | item_synchronizer/synchronizer.py:68-69 | the wrapped `delete_n_pop` deleter, in place; ends in `SyncSpec.WrappedDelete`'s state |
| Synchronizer.Synchronizer.DeleteAndCount | item_synchronizer/synchronizer.py:236-238 | delete, then count the deletion on that side |
| Synchronizer.Synchronizer.PopOnly | item_synchronizer/synchronizer.py:233-235 | drop only the pair of an item both sides deleted |
| Synchronizer.Synchronizer.ResolveConflict | item_synchronizer/synchronizer.py:222-250 | one conflict iteration, in place; ends in `SyncSpec.ResolveConflict`'s state |
| Synchronizer.Synchronizer.PropagateChange | item_synchronizer/synchronizer.py:256-275 | one non-conflict iteration, in place; ends in `SyncSpec.PropagateChange`'s state |
| Synchronizer.Synchronizer.RunPhase | item_synchronizer/synchronizer.py:168-174 | a loop over a set. Its ghost order enumerates the set, and the state it ends in is the fold `Run` over that order, which stops at the first raise |
| Synchronizer.Synchronizer.SyncNewItems | item_synchronizer/synchronizer.py:157-174 | A's new ids into B, then B's into A; the two orders enumerate the two `new` sets |
| Synchronizer.Synchronizer.SyncChanges | item_synchronizer/synchronizer.py:176-275 | `_sync`: the orders taken are admissible, and the final state and status are `SyncRun` of the state before it |
| Synchronizer.Synchronizer.Sync | item_synchronizer/synchronizer.py:144-155 | `_sync`, then the two counters are reported whether it finished or raised |
| SyncProperties.RunPreservesValid | item_synchronizer/synchronizer.py:62-63 | every loop, finished or aborted, keeps `_A_to_B` and `_B_to_A` mutual inverses |
| SyncProperties.SyncPreservesBijection | item_synchronizer/synchronizer.py:176-275 | a whole run keeps the two views mutual inverses, whatever the loop orders |
| SyncProperties.RunStatsGrow | item_synchronizer/synchronizer.py:117-142 | no loop decreases a counter or moves an error counter |
| SyncProperties.SyncStatsGrow | item_synchronizer/synchronizer.py:176-275 | across a whole run, counters only grow and the error counters never move, since nothing calls `error()` |
| SyncProperties.ClassifyFailsOnUnmapped | item_synchronizer/synchronizer.py:182-185 | classification raises `KeyError` exactly when some touched id of either side has no correspondent |
| SyncProperties.ClassifyCharacterization | item_synchronizer/synchronizer.py:182-253 | conflicts are the touched B ids whose correspondent was touched on A; each side's non-conflicts are its touched ids whose correspondent was not touched on the other side |
| SyncProperties.ClassifyPartitions | item_synchronizer/synchronizer.py:252-253 | the touched B ids split into conflicts and B non-conflicts; a touched A id is an A non-conflict exactly when its correspondent is not a conflict |
| SyncProperties.ConflictHandledOnce | item_synchronizer/synchronizer.py:222-228 | each conflicting pair is resolved exactly once, and neither non-conflict loop visits it |
| SyncProperties.RunKeeps | item_synchronizer/synchronizer.py:222-275 | a conflict or non-conflict loop leaves every pair it has not visited in place |
| SyncProperties.RunNoMiss | item_synchronizer/synchronizer.py:254-266 | a loop over distinct ids that are all mapped when it starts never misses a lookup |
| SyncProperties.NewItemsNoMiss | item_synchronizer/synchronizer.py:157-174 | new-item loops never raise `KeyError` from a lookup |
| SyncProperties.LookupMissOnlyInClassify | item_synchronizer/synchronizer.py:182-275 | in a run from a bijective map, a lookup `KeyError` can come only from classification, and then nothing after the new items happened |
| SyncScenarios.ConflictCopiesWinner | item_synchronizer/synchronizer.py:239-250 | for any strategy that names a side, when the winner still has its fetched item, the loser's item is replaced by the conversion of that fetched item (not of the strategy's answered item) and the loser counts one update. A declining converter changes nothing, and a converter failure that is not caught ends the run |
| SyncScenarios.ConflictDropsPair | item_synchronizer/synchronizer.py:231-235 | for any strategy that names a side, when the winner is absent and the loser's side already deleted it, only the pair leaves the map: no deleter, no count |
| SyncScenarios.ConflictDeletesLoser | item_synchronizer/synchronizer.py:236-238 | for any strategy that names a side, when the winner is absent and the loser was modified, the loser leaves its store, the pair leaves the map, and the loser's side counts one deletion |
| SyncScenarios.ConflictDeleteMisses | item_synchronizer/synchronizer.py:236-238 | when the loser's deleter raises, a caught failure is still counted as a deletion; an uncaught one ends the run with nothing changed |
| SyncScenarios.ConverterFailureAborts | item_synchronizer/synchronizer.py:113-141 | a raising converter ends the insert or update with nothing changed when exceptions are not caught, and acts as a declining converter when they are |
| SyncScenarios.ConflictMixAborts | item_synchronizer/synchronizer.py:229-230 | a `Mix` answer raises and changes nothing, and only a custom strategy can give it |
| SyncScenarios.PropagateModified | item_synchronizer/synchronizer.py:256-258 | a one-sided modification overwrites the correspondent with its conversion and counts one update there, even when the id is also deleted. A declining converter changes nothing, and a converter failure that is not caught ends the run |
| SyncScenarios.PropagateModifiedMissing | item_synchronizer/synchronizer.py:126-127 | a modified id its getter cannot find trips the assertion and ends the run |
| SyncScenarios.PropagateDeleted | item_synchronizer/synchronizer.py:259-261 | a one-sided deletion removes the correspondent from its store, the pair from the map, and counts one deletion there |
| SyncScenarios.PropagateDeleteMisses | item_synchronizer/synchronizer.py:259-261 | an already missing correspondent is counted when the failure is caught, and ends the run otherwise |
| SyncScenarios.DeletedOnBothSides | tests/test_synchronizer.py:268-293 | for the conflict of that test: an item deleted on both sides leaves stores and counters unchanged and drops the pair, with the same map whichever side a strategy names |
| SyncScenarios.ModifiedOnADeletedOnB | tests/test_synchronizer.py:195-220 | for the conflict of that test: AlwaysFirst writes A's conversion back into B and keeps the pair; AlwaysSecond deletes A's item and drops the pair |
| SyncScenarios.ModifiedOnBothSides | tests/test_synchronizer.py:221-265 | for the conflicts of that test: the fixed side's conversion overwrites the other side's item |
| SyncScenarios.NeverUnclassified | item_synchronizer/synchronizer.py:255-275 | no run reaches either non-conflict loop's "Programmatic Error" branch |
| SyncScenarios.BuiltInNeverMix | item_synchronizer/synchronizer.py:229-230 | with a built-in strategy no run ends in the mixed-result `RuntimeError` |
| SyncScenarios.CaughtNeverRaises | item_synchronizer/synchronizer.py:77-97 | with exceptions caught, no inserter, converter or deleter failure ends a run |
| SyncScenarios.NewItemStep | item_synchronizer/synchronizer.py:99-124 | a missing item or declining converter does nothing, and a converter failure that is not caught ends the run. A fresh insert stores the converted item, maps the id both ways and counts one creation. A failed insert is counted when caught and ends the run otherwise |
| SyncScenarios.NewItemsInserted | item_synchronizer/synchronizer.py:164-174 | after a new-items loop without error, the origin store is unchanged, and every id whose conversion was inserted is mapped to the inserted id, where the destination holds the conversion |
| SyncScenarios.NewItemsFresh | item_synchronizer/synchronizer.py:174 | inserters answering fresh, distinct identifiers never meet the value-duplication error, and afterwards only old or inserted values are bound |

## Left out

- Logging and text output: every `logger` call, `format_conflict_id` (item_synchronizer/synchronizer.py:187-220), `SideChanges.__str__` and `TypeStats.__str__`. They print and do not change state.
- The mechanics of `_decide_catch_exc` (item_synchronizer/synchronizer.py:77-97): the description built from docstrings and the `KeyboardInterrupt` re-raise. A caught failure is modelled by its effect: the callback answers `None` or does nothing.
- Updater and getter failures other than a missing id. With the harness stores an update cannot fail, and the getter fails only with `KeyError`.
- `bidict` internals. The bidict is two maps with a bijection invariant.
- Value duplication. The code does let a duplicate value reach the bidict, and bidict raises there. So an insert whose identifier is already bound to another id ends the run with `ValueDuplication`; it is not a precondition. `SyncScenarios.NewItemsFresh` proves that fresh identifiers never reach that error.
- `datetime`. Dates are integers returned by the date getters.
- The iteration order of sets. Every loop takes some enumeration of its set, and the properties hold for all of them.
- The inserter is a function of the item. A database that hands out a new identifier per call is not modelled.
- `Synchronizer.Synchronizer.Sync`: `TypeStats` is created once, in `__init__`, and is not reset between runs. The reported counters therefore accumulate over runs.
- The `ResolutionStrategy` base class with a user subclass appears only as `Custom(decide, ready)`. Its `resolve` is an arbitrary function and may answer `Mix`.
- The `name` property of strategies and the `_named` decorator. They only give names.
- Defects in the repository's other files that the model does not reproduce:
  - the tests' `create_synchronizer` omits the required `catch_exceptions` argument (tests/test_synchronizer.py:81-94);
  - item_synchronizer/__init__.py imports `RecencyRS`, but the class is `_RecencyRS`;
  - the harness inserters (tests/test_synchronizer.py:48-54) store the item under `item.val` but answer `str(item)`, the dataclass representation, so the answered id is not the store key. The model follows the documented `InserterFn` contract instead;
  - the comparison `resolution_strategy == AlwaysFirstRS` (tests/test_synchronizer.py:210) compares an instance with a class and is always false. `SyncScenarios.ModifiedOnADeletedOnB` follows the store the test actually builds, where B lacks the item.
- scripts/check_style.py is not part of this model; it only runs formatters.
- item_synchronizer/types.py holds only type aliases, mirrored as `ID = string` and a type parameter `Item`.
- The `new` field of `SideChanges` is `added`, because `new` is a Dafny keyword.

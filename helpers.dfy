/** Helper records and wrappers (item_synchronizer/helpers.py). */
module Helpers {
  import opened Types
  import opened Wrappers
  import opened Bimaps

  /**
   * The identifiers that are new, modified or deleted on one side since the
   * previous run. `new` is a Dafny keyword, so the first field is `added`.
   * Deleted items are already gone from their store, but their pair is still
   * in the correspondence: dropping it is the synchronizer's job.
   */
  datatype SideChanges = SideChanges(added: set<ID>, modified: set<ID>, deleted: set<ID>)
  {
    /** `modified ∪ deleted`, the identifiers the conflict detection looks at. */
    function Touched(): (r: set<ID>)
      ensures forall id :: id in r <==> id in modified || id in deleted
    {
      modified + deleted
    }

    /** The three sets are meant to be pairwise disjoint; nothing in the code checks it. */
    ghost predicate Disjoint() {
      added !! modified && added !! deleted && modified !! deleted
    }
  }

  /** `SideChanges()` with every field left at its default. */
  function NoChanges(): (c: SideChanges)
    ensures c.added == {} && c.modified == {} && c.deleted == {}
    ensures c.Disjoint() && c.Touched() == {}
  {
    SideChanges({}, {}, {})
  }

  /** The exceptions a wrapped getter can see. */
  datatype Raised = KeyError | OtherError

  /** A store lookup `store[id]`, as the getters of the test harness do it. */
  function Lookup<Item>(store: map<ID, Item>, id: ID): (r: Result<Item, Raised>)
    ensures r.Success? <==> id in store
    ensures r.Success? ==> r.value == store[id]
    ensures r.Failure? ==> r.error == KeyError
  {
    if id in store then Success(store[id]) else Failure(KeyError)
  }

  /**
   * `item_getter_handle_exc`: a `KeyError` of the wrapped getter becomes
   * `None`; any other outcome passes through unchanged.
   */
  function HandleKeyError<Item>(raw: Result<Item, Raised>): (r: Result<Option<Item>, Raised>)
    ensures r == Success(None) <==> raw == Failure(KeyError)
    ensures raw.Success? ==> r == Success(Some(raw.value))
    ensures raw == Failure(OtherError) ==> r == Failure(OtherError)
  {
    match raw
    case Success(item) => Success(Some(item))
    case Failure(KeyError) => Success(None)
    case Failure(e) => Failure(e)
  }

  /** The wrapped getter over a store: `None` exactly for a missing identifier. */
  function GetItem<Item>(store: map<ID, Item>, id: ID): (r: Option<Item>)
    ensures r.None? <==> id !in store
    ensures r.Some? ==> r.value == store[id]
  {
    var wrapped := HandleKeyError(Lookup(store, id));
    if wrapped.Success? then wrapped.value else None
  }

  /** How a call of the function built by `delete_n_pop` ended. */
  datatype DeleteOutcome = Done | DeleterRaised | PopRaised

  datatype Deletion<Item> = Deletion(store: map<ID, Item>, ids: Bimap, outcome: DeleteOutcome)

  /**
   * `delete_n_pop(deleter, view)(id)` with the deleter of the test harness
   * (`del store[id]`): it deletes, then pops `id` from the given view of the
   * correspondence. A deleter that raises leaves the view alone; a pop of a
   * missing key raises after the deletion happened.
   */
  function DeleteNPop<Item>(store: map<ID, Item>, ids: Bimap, view: Side, id: ID): (r: Deletion<Item>)
    ensures id !in store ==> r == Deletion(store, ids, DeleterRaised)
    ensures id in store ==> r.store.Keys == store.Keys - {id}
    ensures forall k :: k in r.store ==> k in store && r.store[k] == store[k]
    ensures r.outcome == Done <==> id in store && ids.Get(view, id).Some?
    ensures r.outcome == PopRaised <==> id in store && ids.Get(view, id).None?
    ensures r.outcome == Done ==> r.ids == ids.Pop(view, id).value
    ensures r.outcome != Done ==> r.ids == ids
  {
    if id !in store then Deletion(store, ids, DeleterRaised)
    else
      var store' := store - {id};
      match ids.Pop(view, id)
      case None => Deletion(store', ids, PopRaised)
      case Some(ids') => Deletion(store', ids', Done)
  }

  /** The four events a `TypeStats` counts. */
  datatype Event = Created | Updated | Deleted | Failed

  /** The counters of one `TypeStats`. */
  datatype Counters = Counters(created: nat, updated: nat, deleted: nat, errors: nat)
  {
    function Count(e: Event): nat {
      match e
      case Created => created
      case Updated => updated
      case Deleted => deleted
      case Failed => errors
    }

    /** Reporting one event bumps its own counter by one and no other. */
    function Bump(e: Event): (r: Counters)
      ensures r.Count(e) == Count(e) + 1
      ensures forall e' :: e' != e ==> r.Count(e') == Count(e')
    {
      match e
      case Created => this.(created := created + 1)
      case Updated => this.(updated := updated + 1)
      case Deleted => this.(deleted := deleted + 1)
      case Failed => this.(errors := errors + 1)
    }

    /** Every counter of `this` is at most the same counter of `other`. */
    predicate Le(other: Counters) {
      created <= other.created && updated <= other.updated
      && deleted <= other.deleted && errors <= other.errors
    }
  }

  const Zero := Counters(0, 0, 0, 0)

  /** `TypeStats`: per-side execution counters, incremented in place. */
  class TypeStats {
    const title: string
    var createdNew: nat
    var updated: nat
    var deleted: nat
    var errors: nat

    function Value(): Counters
      reads this
    {
      Counters(createdNew, updated, deleted, errors)
    }

    constructor (title: string)
      ensures this.title == title
      ensures Value() == Zero
    {
      this.title := title;
      createdNew, updated, deleted, errors := 0, 0, 0, 0;
    }

    /** Report an insertion event. */
    method CreateNew()
      modifies this
      ensures Value() == old(Value()).Bump(Created)
    {
      createdNew := createdNew + 1;
    }

    /** Report an update event. */
    method Update()
      modifies this
      ensures Value() == old(Value()).Bump(Updated)
    {
      updated := updated + 1;
    }

    /** Report a delete event. */
    method Delete()
      modifies this
      ensures Value() == old(Value()).Bump(Deleted)
    {
      deleted := deleted + 1;
    }

    /** Report an error during an event operation; the synchronizer never calls it. */
    method Error()
      modifies this
      ensures Value() == old(Value()).Bump(Failed)
    {
      errors := errors + 1;
    }
  }
}

/**
 * The A <-> B correspondence: one bidict seen through its two views,
 * `A_to_B` and its `inverse` `B_to_A` (item_synchronizer/synchronizer.py:62-63).
 */
module Bimaps {
  import opened Types
  import opened Wrappers

  /** `fwd` is the A-to-B view, `bwd` the B-to-A view of the same bidict. */
  datatype Bimap = Bimap(fwd: map<ID, ID>, bwd: map<ID, ID>)
  {
    /** The bijection invariant: the two views are mutual inverses. */
    ghost predicate Valid() {
      && (forall a :: a in fwd ==> fwd[a] in bwd && bwd[fwd[a]] == a)
      && (forall b :: b in bwd ==> bwd[b] in fwd && fwd[bwd[b]] == b)
    }

    /** The view keyed by the identifiers of `side` (A_to_B for A, its inverse for B). */
    function View(side: Side): (r: Bimap)
      ensures Valid() <==> r.Valid()
      ensures side == SideA ==> r == this
      ensures side == SideB ==> r.fwd == bwd && r.bwd == fwd
    {
      if side == SideA then this else Bimap(bwd, fwd)
    }

    /** Mapping lookup `view[key]`; `None` is the `KeyError` of a missing key. */
    function Get(side: Side, key: ID): (r: Option<ID>)
      ensures r.Some? <==> key in View(side).fwd
      ensures r.Some? ==> r.value == View(side).fwd[key]
    {
      var v := View(side);
      if key in v.fwd then Some(v.fwd[key]) else None
    }

    /**
     * `view[key] = val`. A value already bound to a different key makes
     * bidict raise its value-duplication error (`None` here); a key that
     * already had a value loses its old pair.
     */
    function Set(side: Side, key: ID, val: ID): (r: Option<Bimap>)
      ensures r.None? <==> (val in View(side).bwd && View(side).bwd[val] != key)
      ensures Valid() && r.Some? ==>
        && r.value.Valid()
        && r.value.Get(side, key) == Some(val)
        && r.value.Get(side.Other(), val) == Some(key)
        && (forall k :: k != key ==> r.value.Get(side, k) == Get(side, k))
        && (forall u :: u in r.value.View(side).bwd ==> u == val || u in View(side).bwd)
    {
      var v := View(side);
      if val in v.bwd && v.bwd[val] != key then None
      else
        var bwd0 := if key in v.fwd then v.bwd - {v.fwd[key]} else v.bwd;
        var n := Bimap(v.fwd[key := val], bwd0[val := key]);
        assert Valid() ==> n.Valid();
        Some(n.View(side))
    }

    /** `view.pop(key)`: removes the pair in both views; `None` is the `KeyError` of a missing key. */
    function Pop(side: Side, key: ID): (r: Option<Bimap>)
      ensures r.Some? <==> key in View(side).fwd
      ensures Valid() && r.Some? ==>
        && r.value.Valid()
        && r.value.Get(side, key).None?
        && r.value.Get(side.Other(), View(side).fwd[key]).None?
        && (forall k :: k != key ==> r.value.Get(side, k) == Get(side, k))
    {
      var v := View(side);
      if key !in v.fwd then None
      else Some(Bimap(v.fwd - {key}, v.bwd - {v.fwd[key]}).View(side))
    }
  }

  /** In a valid bimap a lookup in one view is undone by the lookup in the other view. */
  lemma MutualInverse(m: Bimap, side: Side, x: ID, y: ID)
    requires m.Valid()
    ensures m.Get(side, x) == Some(y) <==> m.Get(side.Other(), y) == Some(x)
  {
  }

  /** Popping a pair through either view gives the same bidict. */
  lemma PopEitherView(m: Bimap, side: Side, x: ID)
    requires m.Valid() && m.Get(side, x).Some?
    ensures m.Pop(side.Other(), m.Get(side, x).value).Some?
    ensures m.Pop(side, x) == m.Pop(side.Other(), m.Get(side, x).value)
  {
    var y := m.Get(side, x).value;
    assert m.View(side.Other()).fwd[y] == x;
  }

  /**
   * The caller-owned bidict, mutated in place by the synchronizer
   * (item_synchronizer/synchronizer.py:174, 235, 245 and through delete_n_pop).
   */
  class Correspondence {
    var fwd: map<ID, ID>
    var bwd: map<ID, ID>

    function Value(): Bimap
      reads this
    {
      Bimap(fwd, bwd)
    }

    ghost predicate Valid()
      reads this
    {
      Value().Valid()
    }

    constructor (init: Bimap)
      requires init.Valid()
      ensures Valid() && Value() == init
    {
      fwd := init.fwd;
      bwd := init.bwd;
    }

    /** `view[key] = val` in place; `ok` is false when bidict refuses a duplicate value. */
    method Put(side: Side, key: ID, val: ID) returns (ok: bool)
      requires Valid()
      modifies this
      ensures Valid()
      ensures ok == old(Value()).Set(side, key, val).Some?
      ensures Value() == if ok then old(Value()).Set(side, key, val).value else old(Value())
    {
      if side == SideA {
        if val in bwd && bwd[val] != key {
          return false;
        }
        if key in fwd {
          bwd := bwd - {fwd[key]};
        }
        fwd := fwd[key := val];
        bwd := bwd[val := key];
      } else {
        if val in fwd && fwd[val] != key {
          return false;
        }
        if key in bwd {
          fwd := fwd - {bwd[key]};
        }
        bwd := bwd[key := val];
        fwd := fwd[val := key];
      }
      ok := true;
    }

    /** `view.pop(key)` in place; `ok` is false for the `KeyError` of a missing key. */
    method Pop(side: Side, key: ID) returns (ok: bool)
      requires Valid()
      modifies this
      ensures Valid()
      ensures ok == old(Value()).Pop(side, key).Some?
      ensures Value() == if ok then old(Value()).Pop(side, key).value else old(Value())
    {
      if side == SideA {
        if key !in fwd {
          return false;
        }
        bwd := bwd - {fwd[key]};
        fwd := fwd - {key};
      } else {
        if key !in bwd {
          return false;
        }
        fwd := fwd - {bwd[key]};
        bwd := bwd - {key};
      }
      ok := true;
    }
  }
}

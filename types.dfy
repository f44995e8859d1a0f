/** Identifiers and side labels shared by every module (item_synchronizer/types.py). */
module Types {

  /** An item identifier is an opaque string, unique within its own side. */
  type ID = string

  /** The two data stores being reconciled. */
  datatype Side = SideA | SideB
  {
    /** The side opposite to this one. */
    function Other(): (r: Side)
      ensures r != this
    {
      if SideA? then SideB else SideA
    }
  }
}

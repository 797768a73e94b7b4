/**
 * The older mixin of freezable_mixin/freezable.py: the flag is a plain boolean
 * in a private holder object, switched by the protected `_freeze` and
 * `_unfreeze`, with no guard on anything.
 */
module FreezableMixin {

  /** `_FreezableData`: holds the flag. */
  class FreezableData {
    var frozen: bool

    constructor ()
      ensures !frozen
    {
      frozen := false;
    }
  }

  class Freezable {
    /** The private `__data` holder, created by the (mandatory) constructor. */
    const data: FreezableData

    constructor ()
      ensures fresh(data) && !IsFrozen()
    {
      data := new FreezableData();
    }

    /** `_freeze()`: sets the flag; on a frozen object it changes nothing. */
    method Freeze()
      modifies data
      ensures IsFrozen()
      ensures old(data.frozen) ==> unchanged(data)
    {
      data.frozen := true;
    }

    /** `_unfreeze()`: clears the flag; on an unfrozen object it changes nothing. */
    method Unfreeze()
      modifies data
      ensures !IsFrozen()
      ensures !old(data.frozen) ==> unchanged(data)
    {
      data.frozen := false;
    }

    /** `_is_frozen()`: the current flag, read without changing anything. */
    function IsFrozen(): (b: bool)
      reads data
      ensures b == data.frozen
    {
      data.frozen
    }
  }
}

/**
  The item vocabulary the character controller consults: item kinds, the
  body position an item can be equipped to, and the per-item data returned
  by the item database.
 */
module Items {

  /** An item kind; `None` stands for "no item" (an empty slot, no pickup). */
  datatype ItemType = None | Kind(id: nat)

  /**
    Where an item can be equipped. `SwordHand` and `ShieldHand` are the two
    positions the controller asks for; `NotEquipable` stands for every other
    value of the enumeration.
   */
  datatype EquipPosition = NotEquipable | SwordHand | ShieldHand

  /** The part of an item's database record the controller reads. */
  datatype ItemData = ItemData(isEquipable: EquipPosition)

  /**
    The item database as a lookup table: `FindItem(t)` returns a record
    exactly when `t in db`, and `null` otherwise.
   */
  type ItemDatabase = map<ItemType, ItemData>
}

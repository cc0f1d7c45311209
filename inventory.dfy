/**
 * The player's inventory: a list of items bounded by the number of slots,
 * mirrored onto the slot grid by rewriting every slot after each change.
 * It listens on the bus for collected items, cleared slots and the toggle
 * key.
 */
module Inventories {
  import opened Engine
  import opened EventBus
  import opened ItemAssets
  import opened Interactables
  import opened InventorySlots

  /** The index of the first occurrence of `x` in `s`. */
  function FirstIndexOf<T(==)>(s: seq<T>, x: T): (k: nat)
    requires x in s
    ensures k < |s| && s[k] == x && x !in s[..k]
  {
    if s[0] == x then 0
    else
      var k := FirstIndexOf(s[1..], x);
      assert s[..k + 1] == [s[0]] + s[1..][..k];
      k + 1
  }

  /** `List.Remove(x)`: the first occurrence of `x`, if there is one, is taken out. */
  function RemoveFirst<T(==)>(s: seq<T>, x: T): (r: seq<T>)
    ensures x !in s ==> r == s
  {
    if s == [] then []
    else if s[0] == x then s[1..]
    else [s[0]] + RemoveFirst(s[1..], x)
  }

  /** Exactly the first occurrence is the one taken out; everything else keeps its order. */
  lemma {:induction false} RemoveFirstSpec<T>(s: seq<T>, x: T)
    requires x in s
    ensures RemoveFirst(s, x) == s[..FirstIndexOf(s, x)] + s[FirstIndexOf(s, x) + 1..]
  {
    if s[0] != x {
      RemoveFirstSpec(s[1..], x);
      var k := FirstIndexOf(s[1..], x);
      assert s[..k + 1] == [s[0]] + s[1..][..k];
      assert s[k + 2..] == s[1..][k + 1..];
    }
  }

  /** Removing one occurrence takes exactly one copy of `x` out of the list. */
  lemma {:induction false} RemoveFirstTakesOne<T>(s: seq<T>, x: T)
    ensures multiset(RemoveFirst(s, x)) == multiset(s) - multiset{x}
    ensures |RemoveFirst(s, x)| == if x in s then |s| - 1 else |s|
  {
    if s != [] {
      assert s == [s[0]] + s[1..];
      if s[0] != x {
        RemoveFirstTakesOne(s[1..], x);
      }
    }
  }

  /** An item that was not in the list before being added is removed from the end again. */
  lemma {:induction false} AddThenRemoveRestores<T>(s: seq<T>, x: T)
    requires x !in s
    ensures RemoveFirst(s + [x], x) == s
  {
    if s != [] {
      assert (s + [x])[1..] == s[1..] + [x];
      AddThenRemoveRestores(s[1..], x);
      assert s == [s[0]] + s[1..];
    }
  }

  /** The three callbacks the inventory registers in `Awake` and removes in `OnDestroy`. */
  function InventorySubscriptions(self: ObjectId): (subs: seq<Subscription>)
    ensures DistinctIds(subs)
  {
    [Subscription(ItemCollection, Callback(self, InventoryAddItem)),
     Subscription(InventorySlotCleared, Callback(self, InventoryRemoveItem)),
     Subscription(InventoryToggled, Callback(self, InventoryToggle))]
  }

  /** An inventory that is created and later destroyed leaves the bus as it found it. */
  lemma InventoryLeavesBusAsFound(m: Registry, self: ObjectId)
    requires NoEmptyChain(m)
    ensures UnsubscribeEach(SubscribeEach(m, InventorySubscriptions(self)), InventorySubscriptions(self)) == m
  {
    SubscriptionsRoundTrip(m, InventorySubscriptions(self));
  }

  class Inventory {
    const self: ObjectId
    const maxSlots: int                       // m_maxInventorySlots
    const slots: array<InventorySlot>         // m_slots
    var items: seq<Item?>                     // m_items
    var active: bool                          // m_thisObject.activeSelf

    /** The slots are distinct components with images, and the list never outgrows the capacity. */
    ghost predicate Valid()
      reads this, slots
    {
      && (forall i, j :: 0 <= i < j < slots.Length ==> slots[i] != slots[j])
      && (forall i :: 0 <= i < slots.Length ==> slots[i].hasImage)
      && (items == [] || |items| <= maxSlots)
    }

    /**
     * `Awake`: the three callbacks are registered, the slots (created as
     * children from the prefab and collected again) are taken as given, and
     * the inventory starts hidden and empty.
     */
    constructor (self: ObjectId, maxSlots: int, slots: array<InventorySlot>, bus: EventManager)
      requires forall i, j :: 0 <= i < j < slots.Length ==> slots[i] != slots[j]
      requires forall i :: 0 <= i < slots.Length ==> slots[i].hasImage
      requires bus.Valid()
      modifies bus
      ensures Valid() && bus.Valid()
      ensures this.self == self && this.maxSlots == maxSlots && this.slots == slots
      ensures items == [] && !active
      ensures bus.listeners == SubscribeEach(old(bus.listeners), InventorySubscriptions(self))
    {
      this.self := self;
      this.maxSlots := maxSlots;
      this.slots := slots;
      items := [];
      active := false;
      new;
      bus.AddListeners(InventorySubscriptions(self));
    }

    method OnDestroy(bus: EventManager)
      requires bus.Valid()
      modifies bus
      ensures bus.Valid()
      ensures bus.listeners == UnsubscribeEach(old(bus.listeners), InventorySubscriptions(self))
    {
      bus.RemoveListeners(InventorySubscriptions(self));
    }

    /** Shows or hides the inventory, unless the pointer is over a UI element. */
    method ToggleInventory(pointerOverUI: bool)
      modifies this
      ensures active == if pointerOverUI then old(active) else !old(active)
      ensures items == old(items)
    {
      if !pointerOverUI {
        active := !active;
      }
    }

    /**
     * Rewrites every slot: slot `i` shows entry `i` while there is one (a
     * null entry leaves the slot as it was) and is emptied otherwise.
     */
    method UpdateInventorySlots()
      requires Valid()
      modifies slots[..]
      ensures forall i :: 0 <= i < slots.Length && i < |items| && items[i] != null ==>
                slots[i].current == items[i] && slots[i].sprite == items[i].sprite
      ensures forall i :: 0 <= i < slots.Length && i < |items| && items[i] == null ==>
                slots[i].current == old(slots[i].current) && slots[i].sprite == old(slots[i].sprite)
      ensures forall i :: 0 <= i < slots.Length && |items| <= i ==>
                slots[i].current == null && slots[i].sprite == slots[i].defaultSprite
    {
      for i := 0 to slots.Length
        invariant forall j :: 0 <= j < i && j < |items| && items[j] != null ==>
                    slots[j].current == items[j] && slots[j].sprite == items[j].sprite
        invariant forall j :: 0 <= j < i && j < |items| && items[j] == null ==>
                    slots[j].current == old(slots[j].current) && slots[j].sprite == old(slots[j].sprite)
        invariant forall j :: 0 <= j < i && |items| <= j ==>
                    slots[j].current == null && slots[j].sprite == slots[j].defaultSprite
        invariant forall j :: i <= j < slots.Length ==>
                    slots[j].current == old(slots[j].current) && slots[j].sprite == old(slots[j].sprite)
      {
        if i < |items| {
          slots[i].SetItem(items[i]);
        } else {
          slots[i].RemoveItem();
        }
      }
    }

    /**
     * The item-collection callback.  Without a target nothing happens; with a
     * full inventory nothing happens either.  Otherwise the target's
     * collectable item, if it has a `Collectable`, is appended, the slots are
     * rewritten and the target is destroyed (the answer names it).
     */
    method AddItem(data: EventData, collectable: Collectable?) returns (destroyed: Option<ObjectId>)
      requires Valid()
      modifies this, slots[..]
      ensures Valid()
      ensures data.target.None? || |old(items)| >= maxSlots ==>
                items == old(items) && destroyed == None && forall i :: 0 <= i < slots.Length ==>
                  slots[i].current == old(slots[i].current) && slots[i].sprite == old(slots[i].sprite)
      ensures data.target.Some? && |old(items)| < maxSlots ==>
                && items == old(items) + (if collectable != null then [collectable.item] else [])
                && destroyed == data.target
                && Mirrors(old(SlotState()))
      ensures active == old(active)
    {
      destroyed := None;
      if data.target.None? {
        return;
      }
      if |items| < maxSlots {
        if collectable != null {
          items := items + [collectable.item];
        }
        UpdateInventorySlots();
        destroyed := data.target;
      }
    }

    /**
     * The slot-cleared callback.  The target's collectable item is taken out
     * (its first occurrence) and the slots rewritten, only when the target has
     * a `Collectable` whose item is in the list.
     */
    method RemoveItem(data: EventData, collectable: Collectable?)
      requires Valid()
      modifies this, slots[..]
      ensures Valid()
      ensures data.target.None? || collectable == null || collectable.item !in old(items) ==>
                items == old(items) && forall i :: 0 <= i < slots.Length ==>
                  slots[i].current == old(slots[i].current) && slots[i].sprite == old(slots[i].sprite)
      ensures data.target.Some? && collectable != null && collectable.item in old(items) ==>
                && items == RemoveFirst(old(items), collectable.item)
                && Mirrors(old(SlotState()))
      ensures active == old(active)
    {
      if data.target.None? {
        return;
      }
      if collectable != null && collectable.item in items {
        RemoveFirstTakesOne(items, collectable.item);
        items := RemoveFirst(items, collectable.item);
        UpdateInventorySlots();
      }
    }

    /** What each slot shows: its item and its sprite. */
    function SlotState(): (r: seq<(Item?, Option<AssetId>)>)
      reads this, slots, slots[..]
      ensures |r| == slots.Length
      ensures forall i :: 0 <= i < slots.Length ==> r[i] == (slots[i].current, slots[i].sprite)
    {
      seq(slots.Length, i reads slots, slots[..] requires 0 <= i < slots.Length => (slots[i].current, slots[i].sprite))
    }

    /** The slots mirror the list, starting from what they showed in `before`. */
    ghost predicate Mirrors(before: seq<(Item?, Option<AssetId>)>)
      reads this, slots, slots[..], items
      requires |before| == slots.Length
    {
      forall i :: 0 <= i < slots.Length ==>
        if i < |items| && items[i] != null then slots[i].current == items[i] && slots[i].sprite == items[i].sprite
        else if i < |items| then (slots[i].current, slots[i].sprite) == before[i]
        else slots[i].current == null && slots[i].sprite == slots[i].defaultSprite
    }
  }
}

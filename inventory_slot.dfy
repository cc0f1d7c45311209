/**
 * One cell of the inventory grid: it remembers the item it shows and
 * draws that item's sprite on its image, falling back to a default sprite
 * when emptied.
 */
module InventorySlots {
  import opened Engine
  import opened ItemAssets

  /** The default sprite `Awake` settles on: the configured one, else the image's own. */
  function DefaultSprite(configured: Option<AssetId>, imageSprite: Option<AssetId>): (r: Option<AssetId>)
    ensures configured.Some? ==> r == configured
    ensures configured.None? ==> r == imageSprite
  {
    if configured.None? then imageSprite else configured
  }

  class InventorySlot {
    const defaultSprite: Option<AssetId>   // m_defaultInventorySlotSprite after Awake
    const hasImage: bool                   // m_thisImage != null
    var sprite: Option<AssetId>            // m_thisImage.sprite
    var current: Item?                     // m_slotCurrentItem

    /** The public `item` property has no setter and no initialiser, so it is always null. */
    const item: Item? := null

    /**
     * `Awake`: with no configured default, the image's initial sprite becomes
     * the default (reading it needs the image).
     */
    constructor (configured: Option<AssetId>, hasImage: bool, imageSprite: Option<AssetId>)
      requires configured.Some? || hasImage
      ensures defaultSprite == DefaultSprite(configured, imageSprite)
      ensures this.hasImage == hasImage && sprite == imageSprite && current == null
    {
      this.hasImage := hasImage;
      sprite := imageSprite;
      current := null;
      if configured.None? {
        defaultSprite := imageSprite;
      } else {
        defaultSprite := configured;
      }
    }

    /** Shows `x`; a null item is ignored and the slot keeps what it showed. */
    method SetItem(x: Item?)
      modifies this
      ensures x == null ==> current == old(current) && sprite == old(sprite)
      ensures x != null ==> current == x
      ensures x != null && hasImage ==> sprite == x.sprite
      ensures x != null && !hasImage ==> sprite == old(sprite)
      ensures item == null
    {
      if x == null {
        return;
      }
      current := x;
      if hasImage {
        sprite := x.sprite;
      }
    }

    /** Empties the slot and puts the default sprite back (dereferences the image). */
    method RemoveItem()
      requires hasImage
      modifies this
      ensures current == null && sprite == defaultSprite
    {
      current := null;
      if defaultSprite.Some? {
        sprite := defaultSprite;
      } else {
        sprite := None;
      }
    }
  }
}

# UnityLootTableTool: a verified model of the game's bookkeeping

This project is a Dafny model of the game logic in the Unity project
UnityLootTableTool. The model covers these parts:

- **The event bus.** It is a static dictionary from event names to multicast delegate chains.
- **The loot system.**
  - A loot table picks one item at random, weighted by drop rate.
  - Each item saves the resource paths of its prefab and sprite, and loads them again.
- **The inventory.** It is a list bounded by the slot count, and it is mirrored onto a grid of slots.
- **Interactables.**
  - The base class is a one-shot gate that checks range.
  - A collectable publishes an item-collection event.
  - The wandering enemy has a cooldown timer. It dies when attacked and then drops loot.
- **The player.**
  - The motor runs one coroutine at a time, towards a point or after a target.
  - The controller handles targeting and the order of each frame's input.
- **The menu stack and its four menus.** Their hooks pause the game and restore the time scale.
- **Small reactors.** These are the target indicator, the player's animation driver, the load screen's progress bar and the follow camera.

## How engine services are modelled

The engine never runs in this model. Its services appear as follows:

- **Inputs of the operation:**
  - the random draw of `Random.Range`;
  - the asset database's path lookup and `Resources.Load`;
  - the ray casts and the keys and buttons;
  - the nav agent's `hasPath` and `remainingDistance`;
  - distances and positions.
- **Objects:**
  - a `GameClock` holds `Time.timeScale`;
  - a `MenuManagerSlot` holds the static `MenuManager.instance`.
- **Returned values:**
  - The static bus is an `EventManager` object.
  - A component that publishes an event returns the `Message`s it sent, in order.

Floating point is modelled with reals. Each coroutine is an explicit state plus a step method:

- **Motor coroutine.** It is a `Task` plus a `running` flag. `Tick` resumes it for one frame.
- **Enemy's death coroutine.** It becomes `deathPending` plus `FinishDeath`. `FinishDeath` is the step after the wait has elapsed.

Modules follow the source's structure. Each core file is one module, except for files that call each other, which share one:

- `Interactables` holds the base interactable and the two subclasses it dispatches to.
- `Menus` holds the menu manager and its four menus.
- `Engine` models no core file. It holds the engine values that all modules share.


| module | contents |
|---|---|
| `Engine` | option, vectors and clamp, shared by all modules |
| `EventBus` | the bus |
| `ItemAssets` | items |
| `Loot` | loot table |
| `Interactables` | Interactable.cs, Collectable.cs and Enemies/WanderEnemy.cs |
| `InventorySlots` | inventory slot |
| `Inventories` | inventory |
| `PlayerMotors` | player motor |
| `PlayerControllers` | player controller |
| `Menus` | MenuManager.cs, MenuPause.cs, MenuMain.cs, MenuTutorial.cs and MenuGameOver.cs |
| `LoadScreens` | load screen |
| `CameraControllers` | camera controller |
| `TargetIndicators` | target indicator |
| `PlayerAnimations` | player animation |

Decisions where the model follows the code rather than the documented intent:

- **A draw of 0 picks the first item, not the last.** This includes every draw from an all-zero table. The fallback to the last item is unreachable in exact arithmetic.
- **`InitializeLootTable` returns the last item's own result.** An earlier failure does not make the result false. The model states this as written.
- **The `Collectable.item` setter stores nothing.** It assigns to its own argument. `InventorySlot.item` is always null.
- **`ChangeExtension` takes `/` and `\` as separators.**
- **Some null checks in the source can never fail, so their branches are not modelled:**
  - the check of `m_lootTable` after `new`;
  - the checks of the cached transform in `OnInteract` and `DropRandomLoot`;
  - the checks of the nav agent that `RequireComponent` guarantees.
- **The invalid-target branch at the start of `_MoveToTarget` is unreachable.** `MoveToTarget` has already read the target's position. `BeganTarget` still models that branch. `MoveToTarget` only takes live targets.

## Model

| member | source | states |
|---|---|---|
| EventBus.RemoveLast | Assets/Scripts/Managers/EventManager.cs:54 | removing a callback that is not in the chain leaves the chain unchanged |
| EventBus.RemoveLastSpec | Assets/Scripts/Managers/EventManager.cs:54 | delegate subtraction removes exactly the last occurrence and keeps the order of the rest |
| EventBus.RemoveLastTakesOne | Assets/Scripts/Managers/EventManager.cs:54 | subtraction removes one copy of the callback (multiset), and the length drops by one exactly when the callback was present |
| EventBus.LastIndexOf | Assets/Scripts/Managers/EventManager.cs:54 | the occurrence subtraction removes: an index holding the callback with no later copy |
| EventBus.Subscribed | Assets/Scripts/Managers/EventManager.cs:42-48 | an absent id gets the one-callback chain; a present one has the callback appended, duplicates kept; other ids are untouched; no chain is empty |
| EventBus.Unsubscribed | Assets/Scripts/Managers/EventManager.cs:50-58 | an absent id is a no-op; otherwise the last occurrence is removed, and a chain left empty loses its key; other ids are untouched |
| EventBus.Calls | Assets/Scripts/Managers/EventManager.cs:38-39 | a dispatch runs every callback of the chain in order, once per occurrence, each with the same payload |
| EventBus.ApplyAll | Assets/Scripts/Managers/EventManager.cs:42-58 | subscribing and unsubscribing inside a callback never leaves an empty chain |
| EventBus.Reacted | Assets/Scripts/Managers/EventManager.cs:39 | the registry after every callback's own bus operations still has no empty chain |
| EventBus.SubscribeThenUnsubscribe | Assets/Scripts/Managers/EventManager.cs:42-58 | removing a callback right after adding it restores the registry exactly |
| EventBus.UnsubscribeCommutes | Assets/Scripts/Managers/EventManager.cs:42-58 | operations on different ids commute, so one id's chain never changes another id's chain |
| EventBus.UnsubscribePastSubscribes | Assets/Scripts/Managers/EventManager.cs:42-58 | a removal passes through additions made under other ids |
| EventBus.SubscriptionsRoundTrip | Assets/Scripts/Managers/EventManager.cs:42-58 | subscribing a list of callbacks under distinct ids and then unsubscribing that list leaves the bus as it was |
| EventBus.UnsubscribeDropsEmptiedKey | Assets/Scripts/Managers/EventManager.cs:55-56 | a chain emptied by removal loses its key, and triggering that id then runs nothing |
| EventBus.DuplicatesRunTwice | Assets/Scripts/Managers/EventManager.cs:39-47 | a callback added twice runs twice, after the callbacks registered before it |
| EventBus.TwoListenersScenario | Assets/Scripts/Managers/EventManager.cs:36-58 | with A then B registered, A runs before B; after removing A only B runs; removing both empties the bus |
| EventBus.EventManager.constructor | Assets/Scripts/Managers/EventManager.cs:34 | the bus starts empty |
| EventBus.EventManager.TriggerEvent | Assets/Scripts/Managers/EventManager.cs:36-40 | the trace is the chain as it stood before the first callback; an absent id runs nothing and changes nothing; the registry then shows each callback's own subscriptions, in order |
| EventBus.EventManager.AddListener | Assets/Scripts/Managers/EventManager.cs:42-48 | the registry becomes `Subscribed` of the old one |
| EventBus.EventManager.RemoveListener | Assets/Scripts/Managers/EventManager.cs:50-58 | the registry becomes `Unsubscribed` of the old one |
| EventBus.EventManager.AddListeners | Assets/Scripts/UI/Inventory.cs:29-31 | a component's sequence of `AddListener` calls, applied in order |
| EventBus.EventManager.RemoveListeners | Assets/Scripts/UI/Inventory.cs:43-45 | a component's sequence of `RemoveListener` calls, applied in order |
| ItemAssets.ContainsIffOccurs | Assets/Scripts/LootSystem/Item.cs:38-46 | `Contains` holds exactly when the pattern occurs at some position |
| ItemAssets.ShiftedOccurrence | Assets/Scripts/LootSystem/Item.cs:38-46 | an occurrence in the tail of a string is an occurrence one position further into the whole |
| ItemAssets.RemoveAll | Assets/Scripts/LootSystem/Item.cs:39-47 | `Replace(pat, null)` never lengthens the string |
| ItemAssets.RemoveAllWithoutOccurrence | Assets/Scripts/LootSystem/Item.cs:39-47 | deleting a pattern that does not occur changes nothing |
| ItemAssets.RemoveAllWithOccurrence | Assets/Scripts/LootSystem/Item.cs:39-47 | deleting a pattern that occurs makes the string strictly shorter |
| ItemAssets.RemoveAllIsIdentityIff | Assets/Scripts/LootSystem/Item.cs:38-39 | the replace changes the path exactly when the path contains the prefix |
| ItemAssets.SegmentStart | Assets/Scripts/LootSystem/Item.cs:42-48 | the start of the final path segment lies within the path |
| ItemAssets.SegmentStartSpec | Assets/Scripts/LootSystem/Item.cs:42-48 | the final segment starts right after the last separator, or at the start when there is none |
| ItemAssets.ExtensionStart | Assets/Scripts/LootSystem/Item.cs:42-48 | the position of the extension's dot lies within the path |
| ItemAssets.ExtensionStartSpec | Assets/Scripts/LootSystem/Item.cs:42-48 | the position found is exactly the last '.' inside the final segment, and there is none when that segment has no '.' |
| ItemAssets.StripExtensionSpec | Assets/Scripts/LootSystem/Item.cs:42-48 | `ChangeExtension(p, null)` keeps a prefix: all of `p` when the final segment has no '.', otherwise everything before its last '.'; an empty path stays empty |
| ItemAssets.ContainsGuardIsRedundant | Assets/Scripts/LootSystem/Item.cs:38-39 | the `Contains` test before `Replace` never changes the resulting path |
| ItemAssets.StripsResourcesRoot | Assets/Scripts/LootSystem/Item.cs:39 | "Assets/Resources/Items/Sword.prefab" loses exactly its "Assets/Resources/" prefix |
| ItemAssets.StripsPrefabExtension | Assets/Scripts/LootSystem/Item.cs:42 | "Items/Sword.prefab" becomes "Items/Sword" |
| ItemAssets.ResourcePathExample | Assets/Scripts/LootSystem/Item.cs:35-42 | a prefab under the resources folder is saved by its folder-relative name without extension |
| ItemAssets.SavedIsIdempotent | Assets/Scripts/LootSystem/Item.cs:28-49 | saving twice is the same as saving once |
| ItemAssets.Initialized | Assets/Scripts/LootSystem/Item.cs:54-86 | an empty model path fails with no load; a failed model load fails before the sprite is looked at, leaving the sprite alone; success means both paths are non-empty and both loads succeed, and then both references are set; paths and weight never change |
| ItemAssets.InitializedIsIdempotent | Assets/Scripts/LootSystem/Item.cs:54-86 | loading twice is the same as loading once |
| ItemAssets.SaveThenLoadRoundTrip | Assets/Scripts/LootSystem/Item.cs:28-86 | when the loader finds, under the saved names, the assets that the asset database named, loading after saving succeeds and gives back the original prefab, sprite and weight |
| ItemAssets.Item.constructor | Assets/Scripts/LootSystem/Item.cs:10-18 | a new item has no assets, weight 0 and empty paths |
| ItemAssets.Item.SetSavedProperties | Assets/Scripts/LootSystem/Item.cs:28-49 | both paths are derived by the same two steps; model, sprite and weight are unchanged |
| ItemAssets.Item.InitializeItem | Assets/Scripts/LootSystem/Item.cs:54-86 | the new state and the answer are exactly `Initialized` of the old state |
| Loot.DropRates | Assets/Scripts/LootSystem/LootTable.cs:26-29 | the weights are the items' drop rates, in order |
| Loot.ScanFrom | Assets/Scripts/LootSystem/LootTable.cs:34-42 | the scan stops at the first index that uses up the draw, or falls back to the last index when none does |
| Loot.WeightedIndex | Assets/Scripts/LootSystem/LootTable.cs:32-42 | the chosen index is the smallest i with r − (w0+…+wi) ≤ 0, or the last when there is none |
| Loot.PrefixSumsIncrease | Assets/Scripts/LootSystem/LootTable.cs:26-29 | with non-negative weights, longer prefixes never sum to less |
| Loot.DrawIsAlwaysUsedUp | Assets/Scripts/LootSystem/LootTable.cs:34-42 | with non-negative weights and a draw within the total, the draw is used up by the last item at the latest, so the fallback is never reached |
| Loot.FirstHitIsChosen | Assets/Scripts/LootSystem/LootTable.cs:36-39 | the first index that uses up the draw is the one returned |
| Loot.ZeroDrawPicksFirst | Assets/Scripts/LootSystem/LootTable.cs:32-39 | a draw of 0 returns the first item |
| Loot.AllZeroTablePicksFirst | Assets/Scripts/LootSystem/LootTable.cs:26-39 | every draw from an all-zero table returns the first item, not the last |
| Loot.ChoiceIsMonotone | Assets/Scripts/LootSystem/LootTable.cs:34-40 | a larger draw never picks an earlier item |
| Loot.ChosenExactlyInItsSlice | Assets/Scripts/LootSystem/LootTable.cs:26-40 | item k is chosen exactly when the draw lies in its slice of the prefix sums (both directions) |
| Loot.ZeroWeightNeverChosen | Assets/Scripts/LootSystem/LootTable.cs:34-40 | an item of weight 0 after the first is never returned |
| Loot.LootTable.GetWeightedRandomDrop | Assets/Scripts/LootSystem/LootTable.cs:20-43 | an empty table gives null; otherwise the item at `WeightedIndex` of the drop rates for the draw is returned, and the table is not changed |
| Loot.LootTable.InitializeLootTable | Assets/Scripts/LootSystem/LootTable.cs:45-53 | every item is loaded, even after a failure; the answer is the last item's own answer, true for an empty table |
| Loot.LootTable.SerializeItems | Assets/Scripts/LootSystem/LootTable.cs:56-62 | every item is saved; an item listed twice ends up as if it were saved once |
| Interactables.GateStaysShut | Assets/Scripts/Interactables/Interactable.cs:46-47 | once the flag is set, no call of `OnInteract` gets through |
| Interactables.InteractsAtMostOnce | Assets/Scripts/Interactables/Interactable.cs:46-57 | between two resets `Interact` runs at most once; it runs exactly when some call has a live interactor in range, and then the flag is set |
| Interactables.Collected | Assets/Scripts/Interactables/Collectable.cs:31-39 | the reused payload takes the interactor (or null) as its trigger and keeps its target |
| Interactables.Collectable.constructor | Assets/Scripts/Interactables/Collectable.cs:18-22 | the payload names the collectable's own object as its target |
| Interactables.Collectable.GetItem | Assets/Scripts/Interactables/Collectable.cs:7 | the getter returns the stored reference |
| Interactables.Collectable.SetItem | Assets/Scripts/Interactables/Collectable.cs:7 | the setter never changes the stored item |
| Interactables.Collectable.Interact | Assets/Scripts/Interactables/Collectable.cs:25-39 | exactly one ItemCollection event is published, carrying the overwritten payload |
| Interactables.TimerStep | Assets/Scripts/Interactables/Enemies/WanderEnemy.cs:64-70 | a live tick lowers the timer by dt; when the timer reaches 0 or below, the enemy wanders and the timer restarts at the cooldown |
| Interactables.FirstTickWanders | Assets/Scripts/Interactables/Enemies/WanderEnemy.cs:64-70 | the timer starts at 0, so the first live frame wanders |
| Interactables.NoWanderBeforeTimeIsUp | Assets/Scripts/Interactables/Enemies/WanderEnemy.cs:64-70 | while the frame times add up to less than the time left, there is no wandering and the timer drops by exactly their sum |
| Interactables.WanderEnemy.constructor | Assets/Scripts/Interactables/Enemies/WanderEnemy.cs:13-45 | the timer starts at 0; no table; alive |
| Interactables.WanderEnemy.Awake | Assets/Scripts/Interactables/Enemies/WanderEnemy.cs:47-57 | the payload names the enemy as its target, then the table is loaded as `LoadLootTable` states; the timer, the destination, the death state and the destroyed flag stay as they were |
| Interactables.WanderEnemy.LoadLootTable | Assets/Scripts/Interactables/Enemies/WanderEnemy.cs:73-91 | with no file the table stays as it was; otherwise a fresh table of the parsed items is made and every item is loaded; the timer, the destination, the payload and the death state stay as they were |
| Interactables.WanderEnemy.Update | Assets/Scripts/Interactables/Enemies/WanderEnemy.cs:59-71 | a dead enemy changes nothing; a live one steps its timer with `TimerStep` and wanders when that says so |
| Interactables.WanderEnemy.WanderTarget | Assets/Scripts/Interactables/Enemies/WanderEnemy.cs:115-126 | without a centre the destination stays; otherwise it is the sampled point near centre + unit·radius |
| Interactables.WanderEnemy.Wander | Assets/Scripts/Interactables/Enemies/WanderEnemy.cs:115-126 | the destination becomes `WanderTarget`; nothing else changes |
| Interactables.WanderEnemy.Interact | Assets/Scripts/Interactables/Enemies/WanderEnemy.cs:94-100 | CharacterAttacked is published with the interactor as trigger, then the enemy is dead and its death is pending |
| Interactables.WanderEnemy.TriggerEnemyAttackedEvent | Assets/Scripts/Interactables/Enemies/WanderEnemy.cs:149-157 | the reused payload takes the interactor (or null) as trigger and is published once |
| Interactables.WanderEnemy.FinishDeath | Assets/Scripts/Interactables/Enemies/WanderEnemy.cs:106-112 | after the wait the loot is dropped as `DropRandomLoot` states, then the enemy is destroyed and no longer waiting; the timer, the destination, the payload and the table stay as they were |
| Interactables.WanderEnemy.DroppedItem | Assets/Scripts/Interactables/Enemies/WanderEnemy.cs:131-134 | null without a table or from an empty one; otherwise an item of the table |
| Interactables.WanderEnemy.DropRandomLoot | Assets/Scripts/Interactables/Enemies/WanderEnemy.cs:129-146 | nothing is written without a table, a drop, a drop model or a spawned collectable; otherwise the spawned collectable's item gets the drop's rate, model and sprite |
| Interactables.Interactable.constructor | Assets/Scripts/Interactables/Interactable.cs:7-17 | `interactRange` is the configured range; the interaction is fresh |
| Interactables.Interactable.Default | Assets/Scripts/Interactables/Interactable.cs:13 | the range is 2 unless configured otherwise |
| Interactables.Interactable.OnInteract | Assets/Scripts/Interactables/Interactable.cs:43-58 | nothing happens when already used, for a null interactor, or out of range; otherwise the subclass's interaction runs once and the flag is set |
| Interactables.Interactable.Interact | Assets/Scripts/Interactables/Interactable.cs:39 | the virtual call does nothing on the base class and dispatches to the collectable or the enemy |
| Interactables.Interactable.ResetInteractionState | Assets/Scripts/Interactables/Interactable.cs:61-64 | only the flag is cleared |
| InventorySlots.DefaultSprite | Assets/Scripts/UI/InventorySlot.cs:19-26 | the configured default wins; without one the image's initial sprite becomes the default |
| InventorySlots.InventorySlot.constructor | Assets/Scripts/UI/InventorySlot.cs:19-26 | after `Awake` the default sprite is `DefaultSprite`, and the slot is empty |
| InventorySlots.InventorySlot.SetItem | Assets/Scripts/UI/InventorySlot.cs:29-38 | a null item is ignored; otherwise the item is stored and its sprite shown; the public `item` stays null |
| InventorySlots.InventorySlot.RemoveItem | Assets/Scripts/UI/InventorySlot.cs:41-49 | the slot is emptied and shows its default sprite, which is null when there is none |
| Inventories.FirstIndexOf | Assets/Scripts/UI/Inventory.cs:114 | the occurrence `List.Remove` takes: an index holding the item with no earlier copy |
| Inventories.RemoveFirst | Assets/Scripts/UI/Inventory.cs:114 | removing an absent item leaves the list unchanged |
| Inventories.RemoveFirstSpec | Assets/Scripts/UI/Inventory.cs:114 | `List.Remove` removes exactly the first occurrence and keeps the order of the rest |
| Inventories.RemoveFirstTakesOne | Assets/Scripts/UI/Inventory.cs:114 | one copy is removed (multiset), and the length drops by one exactly when the item was present |
| Inventories.AddThenRemoveRestores | Assets/Scripts/UI/Inventory.cs:92-114 | an item that was not in the list before being added is removed again from the end |
| Inventories.InventorySubscriptions | Assets/Scripts/UI/Inventory.cs:29-31 | the inventory's three callbacks are under distinct ids |
| Inventories.InventoryLeavesBusAsFound | Assets/Scripts/UI/Inventory.cs:27-46 | creating an inventory and destroying it later leaves the bus as it was |
| Inventories.Inventory.constructor | Assets/Scripts/UI/Inventory.cs:27-39 | the three callbacks are registered; the inventory starts hidden and empty |
| Inventories.Inventory.OnDestroy | Assets/Scripts/UI/Inventory.cs:41-46 | the same three callbacks are removed |
| Inventories.Inventory.ToggleInventory | Assets/Scripts/UI/Inventory.cs:60-65 | the inventory's visibility flips unless the pointer is over UI |
| Inventories.Inventory.UpdateInventorySlots | Assets/Scripts/UI/Inventory.cs:68-77 | slot i shows entry i for i < count (a null entry leaves the slot as it was), and every other slot is cleared |
| Inventories.Inventory.AddItem | Assets/Scripts/UI/Inventory.cs:80-100 | a null target or a full inventory changes nothing; otherwise the target's collectable item, if any, is appended, the slots are resynced, the target is destroyed, and the count stays within the capacity |
| Inventories.Inventory.RemoveItem | Assets/Scripts/UI/Inventory.cs:103-118 | only a present collectable item is removed (its first occurrence), followed by a resync; otherwise nothing changes |
| Inventories.Inventory.SlotState | Assets/Scripts/UI/Inventory.cs:68-77 | the abstract view of the slot grid that `AddItem` and `RemoveItem` state their resync against: one (item, sprite) pair per slot, in slot order |
| PlayerMotors.Cancelled | Assets/Scripts/Player/PlayerMotor.cs:56-63 | the task is dropped and stopped; the stopping distance, the destination and the payload are kept; with no task nothing changes |
| PlayerMotors.Announced | Assets/Scripts/Player/PlayerMotor.cs:116-120 | the payload takes the new position, and one moved event carries it |
| PlayerMotors.MovedToPoint | Assets/Scripts/Player/PlayerMotor.cs:36-108 | one task is tracked, the point task, which is running towards the point; one moved event with the point comes before the first tick |
| PlayerMotors.BeganTarget | Assets/Scripts/Player/PlayerMotor.cs:66-87 | a target that is already gone stops at once without touching the stopping distance; otherwise the stopping distance becomes the target's range and the first iteration heads for the target and announces it |
| PlayerMotors.MovedToTarget | Assets/Scripts/Player/PlayerMotor.cs:46-87 | one task is tracked, the target task; the range is the stopping distance; two moved events are sent, from the start and from the first iteration |
| PlayerMotors.Ticked | Assets/Scripts/Player/PlayerMotor.cs:79-112 | a point task sets its destination again until it stops, then sends stopped; a target task follows the target until arrival or loss, then sends stopped, resets the path and sets the stopping distance to 0 |
| PlayerMotors.CancelIsIdempotent | Assets/Scripts/Player/PlayerMotor.cs:56-63 | cancelling twice is the same as cancelling once |
| PlayerMotors.StopsAtMostOnce | Assets/Scripts/Player/PlayerMotor.cs:79-112 | over any run of frames only moved and stopped are sent; stopped is sent at most once, as the last message, and exactly when the task finished; a finished task does nothing more |
| PlayerMotors.PlayerMotor.constructor | Assets/Scripts/Player/PlayerMotor.cs:17-23 | no task; the payload names the player as its trigger |
| PlayerMotors.PlayerMotor.IsStopped | Assets/Scripts/Player/PlayerMotor.cs:26-33 | stopped exactly when there is no path or the remaining distance is within the stopping distance |
| PlayerMotors.PlayerMotor.CancelAction | Assets/Scripts/Player/PlayerMotor.cs:56-63 | the state becomes `Cancelled` of the old one |
| PlayerMotors.PlayerMotor.MoveToPoint | Assets/Scripts/Player/PlayerMotor.cs:36-43 | state and messages are `MovedToPoint` of the old state |
| PlayerMotors.PlayerMotor.MoveToTarget | Assets/Scripts/Player/PlayerMotor.cs:46-53 | state and messages are `MovedToTarget` of the old state |
| PlayerMotors.PlayerMotor.Tick | Assets/Scripts/Player/PlayerMotor.cs:79-112 | state and messages are `Ticked` of the old state |
| PlayerMotors.PlayerMotor.TriggerPlayerMovedEvent | Assets/Scripts/Player/PlayerMotor.cs:116-120 | state and messages are `Announced` of the old state |
| PlayerMotors.PlayerMotor.TriggerPlayerStoppedEvent | Assets/Scripts/Player/PlayerMotor.cs:123-126 | one stopped event carries the current payload |
| PlayerControllers.ClickOf | Assets/Scripts/Player/PlayerController.cs:58-92 | no click counts over UI; a left click wins over a right one and walks only when its ray hits the walkable layer; a right click selects only an object with an `Interactable` |
| PlayerControllers.WalkAbsorbsClear | Assets/Scripts/Player/PlayerController.cs:77-78 | the cancel issued by `ClearTarget` before a walk changes nothing that the walk's own cancel does not |
| PlayerControllers.RetargetAbsorbsClear | Assets/Scripts/Player/PlayerController.cs:99-103 | the same holds for the cancel issued before approaching a new target |
| PlayerControllers.ReselectRestarts | Assets/Scripts/Player/PlayerController.cs:95-105 | selecting a target again restarts the same approach, whatever the motor was doing in between, so long as the range and the payload are the same |
| PlayerControllers.PlayerController.constructor | Assets/Scripts/Player/PlayerController.cs:30-39 | the lookups are taken as found; no target is held |
| PlayerControllers.PlayerController.ClearTarget | Assets/Scripts/Player/PlayerController.cs:108-117 | a held target has its flag reset and is dropped; the motor is cancelled even when no target is held |
| PlayerControllers.PlayerController.SetTarget | Assets/Scripts/Player/PlayerController.cs:95-105 | a different target clears the old one first (resetting its flag); the motor then approaches the new target, whose flag is reset even if it was already held |
| PlayerControllers.PlayerController.TryMoveToMousePoint | Assets/Scripts/Player/PlayerController.cs:72-80 | a hit clears the target and walks to the point; a miss changes nothing |
| PlayerControllers.PlayerController.TryInteract | Assets/Scripts/Player/PlayerController.cs:83-92 | only a hit with an `Interactable` becomes the target |
| PlayerControllers.PlayerController.InteractWithTarget | Assets/Scripts/Player/PlayerController.cs:54-55 | the held target, if any, gets `OnInteract` from the player: its flag is set exactly when the interaction fires; when it fires, the messages and the collectable's or enemy's new state are those of the subclass's `Interact`; otherwise nothing is sent and they are unchanged |
| PlayerControllers.PlayerController.HandleClicks | Assets/Scripts/Player/PlayerController.cs:58-68 | over UI nothing happens; otherwise `I` toggles the inventory, then the click is handled as `ClickOf` says |
| PlayerControllers.PlayerController.Update | Assets/Scripts/Player/PlayerController.cs:41-69 | the guard stops the frame only when both the motor and the camera are missing, and then nothing is sent or changed; otherwise the pause request and the held target's interaction come first, with the subclass's messages and effects when it fires, and the toggle and the click follow only off the UI |
| Menus.EnterPauses | Assets/Scripts/UI/Menus/MenuPause.cs:31-35 | entering any menu sets the time scale to 0; every menu except the main one first records the current scale |
| Menus.ExitUndoesEnter | Assets/Scripts/UI/Menus/MenuTutorial.cs:9-19 | for the pause, tutorial and game-over menus, exiting after entering gives back the time scale from before; exiting the main menu sets it to 1 |
| Menus.TutorialOverMain | Assets/Scripts/UI/Menus/MenuMain.cs:16-22 | with the tutorial pushed over the main menu the scale is 0, and it is 0 again after popping back to main |
| Menus.GameClock.constructor | Assets/Scripts/UI/Menus/MenuPause.cs:33 | the clock holds the given time scale |
| Menus.Menu.constructor | Assets/Scripts/UI/Menus/MenuTutorial.cs:6 | a menu starts with a recorded time scale of 0 |
| Menus.Menu.Pause | Assets/Scripts/UI/Menus/MenuPause.cs:17-23 | the pause menu subscribes to PauseGame and starts inactive |
| Menus.Menu.OnDestroy | Assets/Scripts/UI/Menus/MenuPause.cs:25-28 | the pause listener is removed |
| Menus.Menu.OnEnterMenu | Assets/Scripts/UI/Menus/MenuPause.cs:31-35 | the recorded and current scale become `EnterHook` of the old ones |
| Menus.Menu.OnExitMenu | Assets/Scripts/UI/Menus/MenuMain.cs:16-22 | the scale becomes `ExitHook`: 1 for the main menu, the recorded value for the others |
| Menus.Menu.OnTutorialSelected | Assets/Scripts/UI/Menus/MenuPause.cs:51-58 | nothing changes without a tutorial menu; otherwise, when there is a manager, the tutorial is pushed with the whole effect of `PushMenu`: the old top exited and hidden, the tutorial shown and entered, the time scale and the recorded scales as the hooks give them |
| Menus.Menu.OnQuitSelected | Assets/Scripts/UI/Menus/MenuPause.cs:68-75 | nothing changes without a game-over menu; otherwise, when there is a manager, it is pushed with the whole effect of `PushMenu`, the time scale included |
| Menus.Menu.OnReturnSelected | Assets/Scripts/UI/Menus/MenuTutorial.cs:22-26 | when there is a manager, whose stack must then hold a menu, the top is popped with the whole effect of `PopMenu`: its exit hook restores the time scale, and the new top, if any, is shown and entered |
| Menus.Menu.OnGameManagerRequest | Assets/Scripts/UI/Menus/MenuGameOver.cs:22-33 | a restart or quit request is made exactly when a game manager exists |
| Menus.Menu.OnPauseGame | Assets/Scripts/UI/Menus/MenuPause.cs:78-84 | with a manager and nothing open, the pause menu is pushed as `PushMenu` states; when it is the menu shown it is popped as `PopMenu` states, which restores the time scale; otherwise nothing changes |
| Menus.MenuManagerSlot.constructor | Assets/Scripts/UI/MenuManager.cs:15 | the instance starts unset |
| Menus.MenuManager.constructor | Assets/Scripts/UI/MenuManager.cs:9 | the stack starts empty |
| Menus.MenuManager.Awake | Assets/Scripts/UI/MenuManager.cs:17-36 | a second manager destroys itself and pushes nothing; the first becomes the instance and pushes the initial menu |
| Menus.MenuManager.PushMenu | Assets/Scripts/UI/MenuManager.cs:39-56 | the old top, if any, is exited and hidden; then the new menu is pushed, shown and entered; only the top stays active |
| Menus.MenuManager.PopMenu | Assets/Scripts/UI/MenuManager.cs:59-78 | the stack loses its top, which is exited and hidden; the new top, if any, is entered and shown; only the top stays active |
| Menus.PushThenPop | Assets/Scripts/UI/MenuManager.cs:39-78 | a push followed by a pop restores the stack and shows the old top again; over an empty stack, a menu other than the main one also gives back the old time scale |
| Menus.PauseTwice | Assets/Scripts/UI/Menus/MenuPause.cs:78-84 | two pause requests with nothing open leave the stack empty again, the pause menu hidden and the time scale as it was |
| Menus.MenuManager.IsEmpty | Assets/Scripts/UI/MenuManager.cs:81-84 | empty exactly when the count is 0 |
| Engine.ClampSpec | Assets/Scripts/Player/CameraController.cs:71 | with ordered bounds `Mathf.Clamp` lands within them, leaves exactly the in-bounds values alone, and is idempotent |
| LoadScreens.LoadScreen.constructor | Assets/Scripts/UI/LoadScreen.cs:7 | the bar holds its initial fill |
| LoadScreens.LoadScreen.SetFillPercent | Assets/Scripts/UI/LoadScreen.cs:16-24 | above 1 is stored as 1, below 0 as 0, values in [0,1] unchanged; the stored fill always lies in [0,1] |
| LoadScreens.RefillIsIdempotent | Assets/Scripts/UI/LoadScreen.cs:18-23 | clamping a stored fill again changes nothing |
| CameraControllers.ZoomStaysInBounds | Assets/Scripts/Player/CameraController.cs:70-71 | when min ≤ max every frame leaves the zoom within [min,max], and a still wheel leaves an in-bounds zoom alone |
| CameraControllers.CameraController.Default | Assets/Scripts/Player/CameraController.cs:17-37 | inspector defaults; the zoom starts at 10 |
| CameraControllers.CameraController.constructor | Assets/Scripts/Player/CameraController.cs:37 | the zoom starts at 10 whatever the settings |
| CameraControllers.CameraController.Start | Assets/Scripts/Player/CameraController.cs:39-43 | the camera's own transform is cached |
| CameraControllers.CameraController.Update | Assets/Scripts/Player/CameraController.cs:45-72 | the zoom becomes clamp(zoom − axis·speed, min, max) and lies within [min,max] when min ≤ max |
| CameraControllers.CameraController.LateUpdate | Assets/Scripts/Player/CameraController.cs:51-79 | nothing moves without the target or the own transform; otherwise the camera goes to target − offset·zoom and looks at the target raised by the angle |
| TargetIndicators.IndicatorSubscriptions | Assets/Scripts/UI/TargetIndicator.cs:29-30 | the two callbacks are under distinct ids |
| TargetIndicators.IndicatorLeavesBusAsFound | Assets/Scripts/UI/TargetIndicator.cs:29-41 | Awake followed by OnDestroy leaves the bus as it was |
| TargetIndicators.TargetIndicator.constructor | Assets/Scripts/UI/TargetIndicator.cs:17-35 | with no controller nothing is subscribed and nothing changes; otherwise moved and stopped are subscribed and the indicator is inactive |
| TargetIndicators.TargetIndicator.OnDestroy | Assets/Scripts/UI/TargetIndicator.cs:37-41 | both callbacks are removed |
| TargetIndicators.TargetIndicator.OnPlayerMoved | Assets/Scripts/UI/TargetIndicator.cs:45-52 | a move by the player puts the indicator at the move's target and shows it; other triggers are ignored |
| TargetIndicators.TargetIndicator.OnPlayerStopped | Assets/Scripts/UI/TargetIndicator.cs:56-62 | a stop by the player hides the indicator; other triggers are ignored |
| PlayerAnimations.AnimationSubscriptions | Assets/Scripts/Player/PlayerAnimation.cs:26-28 | the three callbacks are under distinct ids |
| PlayerAnimations.AnimationLeavesBusAsFound | Assets/Scripts/Player/PlayerAnimation.cs:26-36 | Start subscribes exactly what OnDestroy unsubscribes, so the bus ends as it was |
| PlayerAnimations.PlayerAnimation.Start | Assets/Scripts/Player/PlayerAnimation.cs:18-29 | the animator is looked up and the three callbacks are registered |
| PlayerAnimations.PlayerAnimation.OnDestroy | Assets/Scripts/Player/PlayerAnimation.cs:31-37 | the same three callbacks are removed |
| PlayerAnimations.PlayerAnimation.SetPlayerMoving | Assets/Scripts/Player/PlayerAnimation.cs:40-49 | the IsMoving flag is set; with no animator a warning is logged instead |
| PlayerAnimations.PlayerAnimation.SetPlayerAttack | Assets/Scripts/Player/PlayerAnimation.cs:52-61 | the Attack trigger is set; with no animator a warning is logged instead |
| PlayerAnimations.PlayerAnimation.OnPlayerMoved | Assets/Scripts/Player/PlayerAnimation.cs:64-68 | a move by this object sets IsMoving; other triggers change nothing |
| PlayerAnimations.PlayerAnimation.OnPlayerStopped | Assets/Scripts/Player/PlayerAnimation.cs:71-75 | a stop by this object clears IsMoving; other triggers change nothing |
| PlayerAnimations.PlayerAnimation.OnPlayerAttack | Assets/Scripts/Player/PlayerAnimation.cs:78-82 | an attack by this object fires Attack; other triggers change nothing |

## Left out

- The engine's own behaviour is left out. This covers navigation pathing and `NavMesh.SamplePosition`, `Random`, `Physics.Raycast`, `Input` and `EventSystem`. It also covers `Resources.Load`, `AssetDatabase.GetAssetPath`, `Instantiate` and `Destroy`, and `LookAt`. Each is an input of the operation, or a recorded effect such as `destroyed` or `lookAt`.
- Logging is left out, except in the animation driver. The `Debug.Log*` messages have no effect on state.
- Floating-point rounding and NaN are not modelled. Values are reals. This is why the rounding-only fallback in `GetWeightedRandomDrop` is proved unreachable rather than modelled.
- The JSON deserialisation of the loot-table file is left out. It depends on `JsonUtility`. `Interactables.WanderEnemy.Awake` takes the parsed items as a parameter (None when no file is assigned).
- Coroutine scheduling is left out: `StartCoroutine`, `yield` and `WaitForSeconds`. Each coroutine is explicit state plus a step method. The enemy's death wait is a single step, `FinishDeath`.
- `Inventories.Inventory.constructor`: there is nothing to model for `CreateChildInventorySlots`, which instantiates the slot prefabs. The inventory constructor receives the collected slot array.
- `EventData` is a reference type whose one instance each component reuses. The model passes it by value. Aliasing of a payload between a publisher and a handler that keeps it is not modelled.
- The order between `SetActive` and the menu hooks inside `PushMenu` and `PopMenu` is not observable. The hooks do not read the active flag, so the model runs them in the source's order without claiming anything about Unity's activation callbacks.
- `Menus.Menu.OnGameManagerRequest` only states that the restart or quit request is made. Scene loading (`GameManager.RestartGame`) and quitting are engine and OS plumbing.
- The editor window, the game manager, the HUD bar, the enemy animation stub, the scene-name holder and its property drawer are not part of this model.
- `PlayerMotors.PlayerMotor.MoveToTarget` takes only live targets, because the source reads the target's position before starting the coroutine. The "target already gone" start is therefore modelled only in `PlayerMotors.BeganTarget`.
- `InventorySlots.InventorySlot.constructor` requires an `Image` or a configured default sprite. Without both, `Awake` reads the sprite of a missing image and throws. The aborted call is not modelled.
- `InventorySlots.InventorySlot.RemoveItem` requires the slot to have an `Image`. `SetItem` checks for the image, but `RemoveItem` writes through it unchecked. The null-reference exception this raises is not modelled.
- `Inventories.Inventory.constructor` requires every slot to have an `Image`, so the aborted slot writes described above stay out of the model.
- `PlayerControllers.PlayerController.Update` requires the camera for any click off the UI once the guard lets the frame through. The guard stops the frame only when both the motor and the camera are missing, so with the motor present and the camera missing, such a click throws a null-reference exception in the ray cast. The aborted frame is not modelled.
- `PlayerControllers.PlayerController.HandleClicks`, `TryMoveToMousePoint` and `TryInteract` require the camera for the same reason.
- `Menus.MenuManager.Awake` requires an initial menu for the first manager. The source only asserts that one is set. Without it, `PushMenu(null)` pushes null and then throws on the menu's game object. The aborted call is not modelled.
- The `requires spawned.item != null` of `Interactables.WanderEnemy.FinishDeath` and `DropRandomLoot` is not a gap. `Collectable.m_item` is a serialised field of the serialisable class `Item`, so Unity always fills it in.
- The controller's `requires` on the motor are not a gap. The player object declares `RequireComponent(typeof(PlayerMotor))`, so the motor lookup in `Awake` always succeeds in a scene.
- `PlayerControllers.PlayerController.ClearTarget` and `SetTarget` require the motor for the same reason.
- `Menus.Menu.OnPauseGame` requires that the pause menu is not shown while there is no manager. In that state the source pops through the missing manager and throws. The aborted call is not modelled.
- `LoadScreens.LoadScreen.SetFillPercent` requires the fill image to be set. Without it the write throws a null-reference exception, which is not modelled.
- Menus are modelled without parent objects. `active` stands for both `activeSelf` and `activeInHierarchy`, although `OnPauseGame` tests the latter. A pause menu under a hidden parent is not modelled.

/**
 * Things the player can interact with.  `Interactable` is the base
 * behaviour: a one-shot gate that fires when a live interactor is within
 * range.  What an interaction does depends on the subclass: a `Collectable`
 * publishes an item-collection event, a `WanderEnemy` publishes an attacked
 * event and dies.  The subclass is a closed set of variants, each holding
 * the object that keeps the subclass's own fields.
 *
 * Events a component publishes through the static bus are returned as the
 * sequence of messages it sent, in order.
 */
module Interactables {
  import opened Engine
  import opened EventBus
  import opened ItemAssets
  import opened Loot

  /** The range an interactable is given unless configured otherwise. */
  const DefaultInteractRange: real := 2.0

  /** Whether `OnInteract` goes on to `Interact`: not yet used, a live interactor, close enough. */
  predicate Fires(hasInteracted: bool, interactor: Option<ObjectId>, distance: real, range: real) {
    !hasInteracted && interactor.Some? && distance <= range
  }

  /** One call of `OnInteract`: the interactor and its distance from the interactable. */
  datatype Approach = Approach(interactor: Option<ObjectId>, distance: real)

  /** How many of `calls` reach `Interact`, starting from the flag `flag`, and the flag afterwards. */
  function GateRuns(flag: bool, calls: seq<Approach>, range: real): (r: (nat, bool))
    decreases |calls|
  {
    if calls == [] then (0, flag)
    else
      var fires := Fires(flag, calls[0].interactor, calls[0].distance, range);
      var rest := GateRuns(flag || fires, calls[1..], range);
      (rest.0 + (if fires then 1 else 0), rest.1)
  }

  /** Once the flag is set, no further call gets through. */
  lemma {:induction false} GateStaysShut(calls: seq<Approach>, range: real)
    ensures GateRuns(true, calls, range) == (0, true)
    decreases |calls|
  {
    if calls != [] {
      GateStaysShut(calls[1..], range);
    }
  }

  /**
   * Between two resets `Interact` runs at most once, however many times
   * `OnInteract` is called; it runs exactly once if some call is in range
   * with a live interactor, and the flag is then set.
   */
  lemma {:induction false} InteractsAtMostOnce(calls: seq<Approach>, range: real)
    ensures GateRuns(false, calls, range).0 <= 1
    ensures GateRuns(false, calls, range).0 == 1 <==> GateRuns(false, calls, range).1
    ensures GateRuns(false, calls, range).1 <==>
            exists i :: 0 <= i < |calls| && Fires(false, calls[i].interactor, calls[i].distance, range)
    decreases |calls|
  {
    if calls != [] {
      var c := calls[0];
      if Fires(false, c.interactor, c.distance, range) {
        GateStaysShut(calls[1..], range);
      } else {
        InteractsAtMostOnce(calls[1..], range);
        assert forall i :: 1 <= i < |calls| ==> calls[i] == calls[1..][i - 1];
        if GateRuns(false, calls, range).1 {
          var i :| 0 <= i < |calls[1..]| && Fires(false, calls[1..][i].interactor, calls[1..][i].distance, range);
          assert calls[i + 1] == calls[1..][i];
        }
      }
    }
  }

  /** A collectable's event payload after an interaction by `interactor`. */
  function Collected(data: EventData, interactor: Option<ObjectId>): (r: EventData)
    ensures r.trigger == interactor && r.target == data.target && r.targetPosition == data.targetPosition
  {
    data.(trigger := interactor)
  }

  /** A pickup in the world; the `Interactable` part is the one whose `derived` is this object. */
  class Collectable {
    const self: ObjectId
    var item: Item?                    // m_item
    var collectEventData: EventData    // m_collectEventData

    /** Deserialisation followed by `Awake`: the payload names this object as its target. */
    constructor (self: ObjectId, item: Item?)
      ensures this.self == self && this.item == item
      ensures collectEventData == EventData(None, Some(self), Zero)
    {
      this.self := self;
      this.item := item;
      collectEventData := BlankData.(target := Some(self));
    }

    /** The `item` getter: the stored reference itself, so writes through it reach this item. */
    function GetItem(): (r: Item?)
      reads this
      ensures r == item
    {
      item
    }

    /** The `item` setter assigns to its own argument and so never stores anything. */
    method SetItem(value: Item?)
      ensures item == old(item)
    {
    }

    /** `Interact` through `TriggerCollectedItemEvent`: the shared payload is overwritten, then published. */
    method Interact(interactor: Option<ObjectId>) returns (emitted: seq<Message>)
      modifies this
      ensures collectEventData == Collected(old(collectEventData), interactor)
      ensures emitted == [Message(ItemCollection, Some(collectEventData))]
      ensures item == old(item)
    {
      if interactor.Some? {
        collectEventData := collectEventData.(trigger := interactor);
      } else {
        collectEventData := collectEventData.(trigger := None);
      }
      emitted := [Message(ItemCollection, Some(collectEventData))];
    }
  }

  /** The enemy's wander timer after a live tick of `dt`: the new time, and whether it wandered. */
  function TimerStep(time: real, dt: real, cooldown: real): (r: (real, bool))
    ensures r.1 <==> time - dt <= 0.0
    ensures r.0 == if r.1 then cooldown else time - dt
  {
    var t := time - dt;
    if t <= 0.0 then (cooldown, true) else (t, false)
  }

  /** The timer after a run of live ticks, and how many of them wandered. */
  function TimerRun(time: real, dts: seq<real>, cooldown: real): (r: (real, nat))
    decreases |dts|
  {
    if dts == [] then (time, 0)
    else
      var s := TimerStep(time, dts[0], cooldown);
      var rest := TimerRun(s.0, dts[1..], cooldown);
      (rest.0, rest.1 + if s.1 then 1 else 0)
  }

  /** The timer starts at 0, so the first live tick (frame times are never negative) wanders. */
  lemma FirstTickWanders(dt: real, cooldown: real)
    requires dt >= 0.0
    ensures TimerStep(0.0, dt, cooldown) == (cooldown, true)
  {
  }

  /**
   * While the ticks add up to less than the time left, the enemy does not
   * wander and the timer goes down by exactly the elapsed time.
   */
  lemma {:induction false} NoWanderBeforeTimeIsUp(time: real, dts: seq<real>, cooldown: real)
    requires forall i :: 0 <= i < |dts| ==> dts[i] >= 0.0
    requires Sum(dts) < time
    ensures TimerRun(time, dts, cooldown) == (time - Sum(dts), 0)
    decreases |dts|
  {
    if dts != [] {
      var t := time - dts[0];
      SumCons(dts);
      NonNegativeSum(dts[1..]);
      assert t > 0.0;
      NoWanderBeforeTimeIsUp(t, dts[1..], cooldown);
    }
  }

  /** The sum taken from the front agrees with the source's back-to-front accumulation. */
  lemma {:induction false} SumCons(w: seq<real>)
    requires w != []
    ensures Sum(w) == w[0] + Sum(w[1..])
    decreases |w|
  {
    if |w| > 1 {
      var q := w[..|w| - 1];
      SumCons(q);
      assert q[1..] == w[1..][..|w[1..]| - 1];
    }
  }

  lemma {:induction false} NonNegativeSum(w: seq<real>)
    requires forall i :: 0 <= i < |w| ==> w[i] >= 0.0
    ensures Sum(w) >= 0.0
    decreases |w|
  {
    if w != [] {
      NonNegativeSum(w[..|w| - 1]);
    }
  }

  /** An enemy that wanders around a centre until it is attacked, then drops loot and is destroyed. */
  class WanderEnemy {
    const self: ObjectId
    const wanderCenter: Option<Vec3>     // m_wanderCenter's position, when there is one
    const wanderRadius: real             // m_wanderRadius
    const wanderCooldown: real           // m_wanderCooldown
    const deathWaitTime: real            // m_deathWaitTime
    var currentWanderTime: real          // m_currentWanderTime
    var lootTable: LootTable?            // m_lootTable
    var attackedEventData: EventData     // m_attackedEventData
    var isDead: bool                     // m_isDead
    var destination: Option<Vec3>        // the destination last given to the nav agent
    var deathPending: bool               // WaitTimeUntilDeath is suspended in its wait
    var destroyed: bool                  // Destroy(m_thisObject) has been called

    /** The serialised configuration; 10 and 1 are the inspector defaults for radius and wait. */
    constructor (self: ObjectId, wanderCenter: Option<Vec3>, wanderRadius: real, wanderCooldown: real, deathWaitTime: real)
      ensures this.self == self && this.wanderCenter == wanderCenter && this.wanderRadius == wanderRadius
      ensures this.wanderCooldown == wanderCooldown && this.deathWaitTime == deathWaitTime
      ensures currentWanderTime == 0.0 && lootTable == null && !isDead && destination == None
      ensures attackedEventData == BlankData && !deathPending && !destroyed
    {
      this.self := self;
      this.wanderCenter := wanderCenter;
      this.wanderRadius := wanderRadius;
      this.wanderCooldown := wanderCooldown;
      this.deathWaitTime := deathWaitTime;
      currentWanderTime := 0.0;
      lootTable := null;
      attackedEventData := BlankData;
      isDead := false;
      destination := None;
      deathPending := false;
      destroyed := false;
    }

    /**
     * `Awake`: the payload names this enemy as its target, and the loot
     * table is built from `parsed`, the items the table file deserialises to
     * (None when no file is assigned), and loaded.
     */
    method Awake(parsed: Option<seq<Item>>, loadModel: string -> Option<AssetId>, loadSprite: string -> Option<AssetId>)
      modifies this, if parsed.Some? then parsed.value else []
      ensures attackedEventData == old(attackedEventData).(target := Some(self))
      ensures parsed.None? ==> lootTable == old(lootTable)
      ensures parsed.Some? ==> fresh(lootTable) && lootTable.items == parsed.value
      ensures parsed.Some? ==> forall x :: x in parsed.value ==>
                x.State() == Initialized(old(x.State()), loadModel, loadSprite).state
      ensures isDead == old(isDead) && currentWanderTime == old(currentWanderTime)
      ensures destination == old(destination) && deathPending == old(deathPending) && destroyed == old(destroyed)
    {
      attackedEventData := attackedEventData.(target := Some(self));
      LoadLootTable(parsed, loadModel, loadSprite);
    }

    method LoadLootTable(parsed: Option<seq<Item>>, loadModel: string -> Option<AssetId>, loadSprite: string -> Option<AssetId>)
      modifies this, if parsed.Some? then parsed.value else []
      ensures parsed.None? ==> lootTable == old(lootTable)
      ensures parsed.Some? ==> fresh(lootTable) && lootTable.items == parsed.value
      ensures parsed.Some? ==> forall x :: x in parsed.value ==>
                x.State() == Initialized(old(x.State()), loadModel, loadSprite).state
      ensures attackedEventData == old(attackedEventData) && isDead == old(isDead)
      ensures currentWanderTime == old(currentWanderTime)
      ensures destination == old(destination) && deathPending == old(deathPending) && destroyed == old(destroyed)
    {
      if parsed.None? {
        return;
      }
      var table := new LootTable(parsed.value);
      lootTable := table;
      var _ := table.InitializeLootTable(loadModel, loadSprite);
    }

    /**
     * One frame.  A dead enemy does nothing; otherwise the timer runs down
     * by `dt` and, once it is used up, the enemy wanders and the timer
     * restarts at the cooldown.  `unit` is `Random.insideUnitSphere` and
     * `sample` the point `NavMesh.SamplePosition` reports.
     */
    method Update(dt: real, unit: Vec3, sample: Vec3 -> Vec3)
      modifies this
      ensures old(isDead) ==> currentWanderTime == old(currentWanderTime) && destination == old(destination)
      ensures !old(isDead) ==> currentWanderTime == TimerStep(old(currentWanderTime), dt, wanderCooldown).0
      ensures !old(isDead) && TimerStep(old(currentWanderTime), dt, wanderCooldown).1 ==>
                destination == WanderTarget(old(destination), unit, sample)
      ensures !(!old(isDead) && TimerStep(old(currentWanderTime), dt, wanderCooldown).1) ==>
                destination == old(destination)
      ensures isDead == old(isDead) && lootTable == old(lootTable) && attackedEventData == old(attackedEventData)
      ensures deathPending == old(deathPending) && destroyed == old(destroyed)
    {
      if isDead {
        return;
      }
      currentWanderTime := currentWanderTime - dt;
      if currentWanderTime <= 0.0 {
        Wander(unit, sample);
        currentWanderTime := wanderCooldown;
      }
    }

    /** Where `Wander` sends the agent: nowhere new without a centre. */
    function WanderTarget(current: Option<Vec3>, unit: Vec3, sample: Vec3 -> Vec3): (r: Option<Vec3>)
      ensures wanderCenter.None? ==> r == current
      ensures wanderCenter.Some? ==> r == Some(sample(unit.Scaled(wanderRadius).Plus(wanderCenter.value)))
    {
      match wanderCenter
      case None => current
      case Some(c) => Some(sample(unit.Scaled(wanderRadius).Plus(c)))
    }

    method Wander(unit: Vec3, sample: Vec3 -> Vec3)
      modifies this
      ensures destination == WanderTarget(old(destination), unit, sample)
      ensures currentWanderTime == old(currentWanderTime) && isDead == old(isDead)
      ensures lootTable == old(lootTable) && attackedEventData == old(attackedEventData)
      ensures deathPending == old(deathPending) && destroyed == old(destroyed)
    {
      if wanderCenter.None? {
        return;
      }
      var wanderPos := unit.Scaled(wanderRadius).Plus(wanderCenter.value);
      destination := Some(sample(wanderPos));
    }

    /**
     * `Interact`: publish the attacked event with the interactor as trigger,
     * die, and start the death coroutine, which at once suspends in its wait.
     */
    method Interact(interactor: Option<ObjectId>) returns (emitted: seq<Message>)
      modifies this
      ensures attackedEventData == old(attackedEventData).(trigger := interactor)
      ensures emitted == [Message(CharacterAttacked, Some(attackedEventData))]
      ensures isDead && deathPending
      ensures currentWanderTime == old(currentWanderTime) && destination == old(destination)
      ensures lootTable == old(lootTable) && destroyed == old(destroyed)
    {
      emitted := TriggerEnemyAttackedEvent(interactor);
      isDead := true;
      deathPending := true;
    }

    method TriggerEnemyAttackedEvent(interactor: Option<ObjectId>) returns (emitted: seq<Message>)
      modifies this
      ensures attackedEventData == old(attackedEventData).(trigger := interactor)
      ensures emitted == [Message(CharacterAttacked, Some(attackedEventData))]
      ensures isDead == old(isDead) && deathPending == old(deathPending)
      ensures currentWanderTime == old(currentWanderTime) && destination == old(destination)
      ensures lootTable == old(lootTable) && destroyed == old(destroyed)
    {
      if interactor.Some? {
        attackedEventData := attackedEventData.(trigger := interactor);
      } else {
        attackedEventData := attackedEventData.(trigger := None);
      }
      emitted := [Message(CharacterAttacked, Some(attackedEventData))];
    }

    /**
     * The death coroutine once its wait has elapsed: drop loot, then
     * destroy this enemy.  `r` is the loot table's random draw and `spawned`
     * the `Collectable` of the instantiated drop, if it has one.
     */
    method FinishDeath(r: real, spawned: Collectable?) returns (drop: Item?)
      requires deathPending
      requires lootTable != null && |lootTable.items| > 0 ==> InDrawRange(r, Sum(DropRates(lootTable.items)))
      requires spawned != null ==> spawned.item != null
      modifies this, if spawned != null then {spawned.item} else {}
      ensures drop == old(DroppedItem(r))
      ensures DropReaches(drop, spawned) ==>
                spawned.item.State() == old(spawned.item.State()).(dropRate := old(drop.dropRate),
                  model := old(drop.model), sprite := old(drop.sprite))
      ensures spawned != null && !DropReaches(drop, spawned) ==> spawned.item.State() == old(spawned.item.State())
      ensures destroyed && !deathPending
      ensures isDead == old(isDead) && lootTable == old(lootTable)
      ensures currentWanderTime == old(currentWanderTime) && destination == old(destination)
      ensures attackedEventData == old(attackedEventData)
    {
      drop := DropRandomLoot(r, spawned);
      deathPending := false;
      destroyed := true;
    }

    /** The item `DropRandomLoot` draws for `r`: null without a table or from an empty one. */
    function DroppedItem(r: real): (d: Item?)
      reads this, lootTable, if lootTable != null then lootTable.items else []
      requires lootTable != null && |lootTable.items| > 0 ==> InDrawRange(r, Sum(DropRates(lootTable.items)))
      ensures lootTable == null ==> d == null
      ensures lootTable != null && |lootTable.items| == 0 ==> d == null
      ensures lootTable != null && |lootTable.items| > 0 ==> d in lootTable.items
    {
      if lootTable == null || |lootTable.items| == 0 then null
      else lootTable.items[WeightedIndex(DropRates(lootTable.items), r)]
    }

    /** Whether a drawn item reaches the spawned collectable: a drop with a prefab, instantiated with a `Collectable`. */
    static predicate DropReaches(drop: Item?, spawned: Collectable?)
      reads drop
    {
      drop != null && drop.model.Some? && spawned != null
    }

    method DropRandomLoot(r: real, spawned: Collectable?) returns (drop: Item?)
      requires lootTable != null && |lootTable.items| > 0 ==> InDrawRange(r, Sum(DropRates(lootTable.items)))
      requires spawned != null ==> spawned.item != null
      modifies if spawned != null then {spawned.item} else {}
      ensures drop == old(DroppedItem(r))
      ensures DropReaches(drop, spawned) ==>
                spawned.item.State() == old(spawned.item.State()).(dropRate := old(drop.dropRate),
                  model := old(drop.model), sprite := old(drop.sprite))
      ensures spawned != null && !DropReaches(drop, spawned) ==> spawned.item.State() == old(spawned.item.State())
    {
      if lootTable == null {
        return null;
      }
      drop := lootTable.GetWeightedRandomDrop(r);
      if drop != null && drop.model.Some? {
        if spawned == null {
          return;
        }
        var target := spawned.item;
        target.dropRate := drop.dropRate;
        target.model := drop.model;
        target.sprite := drop.sprite;
      }
    }
  }

  /** The subclass an interactable belongs to, with the object holding its own fields. */
  datatype Derived = Base | AsCollectable(c: Collectable) | AsEnemy(e: WanderEnemy)

  class Interactable {
    const interactRange: real          // m_interactRange, through the `interactRange` getter
    const derived: Derived
    var hasInteracted: bool            // m_hasInteracted

    constructor (interactRange: real, derived: Derived)
      ensures this.interactRange == interactRange && this.derived == derived && !hasInteracted
    {
      this.interactRange := interactRange;
      this.derived := derived;
      hasInteracted := false;
    }

    /** An interactable with the inspector's default range of 2. */
    constructor Default(derived: Derived)
      ensures interactRange == DefaultInteractRange && this.derived == derived && !hasInteracted
    {
      interactRange := DefaultInteractRange;
      this.derived := derived;
      hasInteracted := false;
    }

    /** The objects an interaction may change beside this one. */
    function DerivedObjects(): set<object> {
      match derived
      case Base => {}
      case AsCollectable(c) => {c}
      case AsEnemy(e) => {e}
    }

    /**
     * What the virtual `Interact` did, against the state before it: nothing
     * on the base class; a collectable publishes the collection event with
     * the interactor as trigger; an enemy publishes the attacked event, dies
     * and starts its death wait.
     */
    twostate predicate Interacted(interactor: Option<ObjectId>, emitted: seq<Message>)
      reads DerivedObjects()
    {
      match derived
      case Base => emitted == []
      case AsCollectable(c) =>
        && c.collectEventData == Collected(old(c.collectEventData), interactor)
        && emitted == [Message(ItemCollection, Some(c.collectEventData))]
        && c.item == old(c.item)
      case AsEnemy(e) =>
        && e.attackedEventData == old(e.attackedEventData).(trigger := interactor)
        && emitted == [Message(CharacterAttacked, Some(e.attackedEventData))]
        && e.isDead && e.deathPending
        && e.currentWanderTime == old(e.currentWanderTime) && e.destination == old(e.destination)
        && e.lootTable == old(e.lootTable) && e.destroyed == old(e.destroyed)
    }

    /**
     * `OnInteract(interactor)`, where `distance` is the distance between the
     * interactor and this object.  It fires at most once until reset, and
     * only for a live interactor within range.
     */
    method OnInteract(interactor: Option<ObjectId>, distance: real) returns (emitted: seq<Message>)
      modifies this, DerivedObjects()
      ensures hasInteracted == (old(hasInteracted) || Fires(old(hasInteracted), interactor, distance, interactRange))
      ensures !Fires(old(hasInteracted), interactor, distance, interactRange) ==>
                emitted == [] && unchanged(DerivedObjects())
      ensures Fires(old(hasInteracted), interactor, distance, interactRange) ==> Interacted(interactor, emitted)
    {
      emitted := [];
      if hasInteracted || interactor.None? {
        return;
      }
      if distance <= interactRange {
        emitted := Interact(interactor);
        hasInteracted := true;
      }
    }

    /** The virtual `Interact`, dispatched on the subclass; the base does nothing. */
    method Interact(interactor: Option<ObjectId>) returns (emitted: seq<Message>)
      modifies DerivedObjects()
      ensures Interacted(interactor, emitted)
    {
      match derived
      case Base =>
        emitted := [];
      case AsCollectable(c) =>
        emitted := c.Interact(interactor);
      case AsEnemy(e) =>
        emitted := e.Interact(interactor);
    }

    method ResetInteractionState()
      modifies this
      ensures !hasInteracted
    {
      hasInteracted := false;
    }
  }
}

/**
 * The player's animation driver: the moved and stopped events raised by
 * the player set the animator's IsMoving flag, the attack event fires its
 * Attack trigger.  The animator's parameters are fields; a missing
 * animator turns every change into a warning.
 */
module PlayerAnimations {
  import opened Engine
  import opened EventBus

  /** The three callbacks `Start` registers and `OnDestroy` removes. */
  function AnimationSubscriptions(self: ObjectId): (subs: seq<Subscription>)
    ensures DistinctIds(subs)
  {
    [Subscription(CharacterMoved, Callback(self, AnimationOnPlayerMoved)),
     Subscription(CharacterStopped, Callback(self, AnimationOnPlayerStopped)),
     Subscription(CharacterAttacked, Callback(self, AnimationOnPlayerAttack))]
  }

  /** `Start` and `OnDestroy` name the same three subscriptions, so together they leave the bus as it was. */
  lemma AnimationLeavesBusAsFound(m: Registry, self: ObjectId)
    requires NoEmptyChain(m)
    ensures UnsubscribeEach(SubscribeEach(m, AnimationSubscriptions(self)), AnimationSubscriptions(self)) == m
  {
    SubscriptionsRoundTrip(m, AnimationSubscriptions(self));
  }

  class PlayerAnimation {
    const self: ObjectId          // m_thisObject
    const hasAnimator: bool       // m_playerAnimator != null
    var isMoving: bool            // the animator's "IsMoving" bool
    var attackTriggered: bool     // the animator's "Attack" trigger is set
    var warnings: nat             // missing-animator warnings logged

    /** `Start`: the animator is looked up (given as found or not) and the three callbacks are registered. */
    constructor Start(self: ObjectId, hasAnimator: bool, isMoving: bool, bus: EventManager)
      requires bus.Valid()
      modifies bus
      ensures bus.Valid()
      ensures this.self == self && this.hasAnimator == hasAnimator
      ensures this.isMoving == isMoving && !attackTriggered && warnings == 0
      ensures bus.listeners == SubscribeEach(old(bus.listeners), AnimationSubscriptions(self))
    {
      this.self := self;
      this.hasAnimator := hasAnimator;
      this.isMoving := isMoving;
      attackTriggered := false;
      warnings := 0;
      new;
      bus.AddListeners(AnimationSubscriptions(self));
    }

    method OnDestroy(bus: EventManager)
      requires bus.Valid()
      modifies bus
      ensures bus.Valid()
      ensures bus.listeners == UnsubscribeEach(old(bus.listeners), AnimationSubscriptions(self))
    {
      bus.RemoveListeners(AnimationSubscriptions(self));
    }

    method SetPlayerMoving(moving: bool)
      modifies this
      ensures hasAnimator ==> isMoving == moving && warnings == old(warnings)
      ensures !hasAnimator ==> isMoving == old(isMoving) && warnings == old(warnings) + 1
      ensures attackTriggered == old(attackTriggered)
    {
      if !hasAnimator {
        warnings := warnings + 1;
        return;
      }
      isMoving := moving;
    }

    method SetPlayerAttack()
      modifies this
      ensures hasAnimator ==> attackTriggered && warnings == old(warnings)
      ensures !hasAnimator ==> attackTriggered == old(attackTriggered) && warnings == old(warnings) + 1
      ensures isMoving == old(isMoving)
    {
      if !hasAnimator {
        warnings := warnings + 1;
        return;
      }
      attackTriggered := true;
    }

    /** The moved callback: only the player's own move starts the run animation. */
    method OnPlayerMoved(data: EventData)
      modifies this
      ensures data.trigger == Some(self) && hasAnimator ==> isMoving && warnings == old(warnings)
      ensures data.trigger == Some(self) && !hasAnimator ==> isMoving == old(isMoving) && warnings == old(warnings) + 1
      ensures data.trigger != Some(self) ==> isMoving == old(isMoving) && warnings == old(warnings)
      ensures attackTriggered == old(attackTriggered)
    {
      if data.trigger == Some(self) {
        SetPlayerMoving(true);
      }
    }

    /** The stopped callback: only the player's own stop returns to idle. */
    method OnPlayerStopped(data: EventData)
      modifies this
      ensures data.trigger == Some(self) && hasAnimator ==> !isMoving && warnings == old(warnings)
      ensures data.trigger == Some(self) && !hasAnimator ==> isMoving == old(isMoving) && warnings == old(warnings) + 1
      ensures data.trigger != Some(self) ==> isMoving == old(isMoving) && warnings == old(warnings)
      ensures attackTriggered == old(attackTriggered)
    {
      if data.trigger == Some(self) {
        SetPlayerMoving(false);
      }
    }

    /** The attack callback: only an attack the player made fires the Attack trigger. */
    method OnPlayerAttack(data: EventData)
      modifies this
      ensures data.trigger == Some(self) && hasAnimator ==> attackTriggered && warnings == old(warnings)
      ensures data.trigger == Some(self) && !hasAnimator ==>
                attackTriggered == old(attackTriggered) && warnings == old(warnings) + 1
      ensures data.trigger != Some(self) ==> attackTriggered == old(attackTriggered) && warnings == old(warnings)
      ensures isMoving == old(isMoving)
    {
      if data.trigger == Some(self) {
        SetPlayerAttack();
      }
    }
  }
}

/**
 * The marker that shows where the player is heading: shown at the target
 * of each of the player's moves and hidden when the player stops; events
 * raised by any other object are ignored.
 */
module TargetIndicators {
  import opened Engine
  import opened EventBus

  /** The two callbacks the indicator registers. */
  function IndicatorSubscriptions(self: ObjectId): (subs: seq<Subscription>)
    ensures DistinctIds(subs)
  {
    [Subscription(CharacterMoved, Callback(self, IndicatorOnPlayerMoved)),
     Subscription(CharacterStopped, Callback(self, IndicatorOnPlayerStopped))]
  }

  /** An indicator that is created and later destroyed leaves the bus as it found it. */
  lemma IndicatorLeavesBusAsFound(m: Registry, self: ObjectId)
    requires NoEmptyChain(m)
    ensures UnsubscribeEach(SubscribeEach(m, IndicatorSubscriptions(self)), IndicatorSubscriptions(self)) == m
  {
    SubscriptionsRoundTrip(m, IndicatorSubscriptions(self));
  }

  /** What the indicator does with a payload: only the player's own events concern it. */
  predicate FromPlayer(data: EventData, player: Option<ObjectId>) {
    data.trigger == player
  }

  class TargetIndicator {
    const self: ObjectId
    const player: Option<ObjectId>     // m_playerObject, set only when a controller is configured
    var position: Vec3                 // m_transform.position
    var active: bool                   // m_thisObject.activeSelf

    /**
     * `Awake`, with `controller` the configured player controller's object:
     * without one it subscribes to nothing and leaves the indicator as it
     * is; with one it subscribes to the player's moves and stops and hides
     * the indicator.
     */
    constructor (self: ObjectId, controller: Option<ObjectId>, position: Vec3, active: bool, bus: EventManager)
      requires bus.Valid()
      modifies bus
      ensures bus.Valid()
      ensures this.self == self && player == controller && this.position == position
      ensures controller.None? ==> this.active == active && bus.listeners == old(bus.listeners)
      ensures controller.Some? ==>
                && !this.active
                && bus.listeners == SubscribeEach(old(bus.listeners), IndicatorSubscriptions(self))
    {
      this.self := self;
      player := controller;
      this.position := position;
      this.active := active;
      new;
      if controller.None? {
        return;
      }
      bus.AddListeners(IndicatorSubscriptions(self));
      this.active := false;
    }

    method OnDestroy(bus: EventManager)
      requires bus.Valid()
      modifies bus
      ensures bus.Valid()
      ensures bus.listeners == UnsubscribeEach(old(bus.listeners), IndicatorSubscriptions(self))
    {
      bus.RemoveListeners(IndicatorSubscriptions(self));
    }

    /**
     * `OnPlayerMoved`: the player's move puts the indicator on the move's
     * target and shows it.  The cached transform and object exist only after a
     * successful `Awake`; a payload with no trigger matches the missing player.
     */
    method OnPlayerMoved(data: EventData)
      requires FromPlayer(data, player) ==> player.Some?
      modifies this
      ensures FromPlayer(data, player) ==> position == data.targetPosition && active
      ensures !FromPlayer(data, player) ==> position == old(position) && active == old(active)
    {
      if data.trigger == player {
        position := data.targetPosition;
        active := true;
      }
    }

    /** `OnPlayerStopped`: the player's stop hides the indicator where it is. */
    method OnPlayerStopped(data: EventData)
      requires FromPlayer(data, player) ==> player.Some?
      modifies this
      ensures FromPlayer(data, player) ==> !active && position == old(position)
      ensures !FromPlayer(data, player) ==> position == old(position) && active == old(active)
    {
      if data.trigger == player {
        active := false;
      }
    }
  }
}

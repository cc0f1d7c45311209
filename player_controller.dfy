/**
 * The player's input handling: each frame the controller publishes the
 * pause request, keeps interacting with the interactable it has targeted,
 * and, unless the pointer is over the UI, toggles the inventory and turns
 * a left click into a walk and a right click into a new target.  The
 * keys, buttons and ray casts of the frame are its input.
 */
module PlayerControllers {
  import opened Engine
  import opened EventBus
  import opened Interactables
  import opened PlayerMotors

  /**
   * One frame's input.  `walkHit` is where the left-click ray meets the
   * walkable layer, `pick` the `Interactable` of whatever the right-click
   * ray hits (None for a miss or an object without one) and `pickPosition`
   * that object's position; `targetDistance` is the distance between the
   * player and the interactable it holds.
   */
  datatype FrameInput = FrameInput(
    escapeUp: bool,
    overUI: bool,
    inventoryKeyUp: bool,
    leftDown: bool,
    rightDown: bool,
    walkHit: Option<Vec3>,
    pick: Option<Interactable>,
    pickPosition: Vec3,
    targetDistance: real)

  /** What a frame's clicks amount to. */
  datatype Click = NoClick | WalkTo(point: Vec3) | Select(target: Interactable, position: Vec3)

  /**
   * The click handled this frame: none over the UI; a left click wins over a
   * right one and walks only when its ray hits the walkable layer; a right
   * click selects only an object with an `Interactable`.
   */
  function ClickOf(i: FrameInput): (c: Click)
    ensures i.overUI ==> c == NoClick
    ensures !i.overUI && i.leftDown ==> c == if i.walkHit.Some? then WalkTo(i.walkHit.value) else NoClick
    ensures !i.overUI && !i.leftDown && i.rightDown ==>
              c == if i.pick.Some? then Select(i.pick.value, i.pickPosition) else NoClick
    ensures !i.leftDown && !i.rightDown ==> c == NoClick
  {
    if i.overUI then NoClick
    else if i.leftDown then
      match i.walkHit
      case Some(p) => WalkTo(p)
      case None => NoClick
    else if i.rightDown then
      match i.pick
      case Some(t) => Select(t, i.pickPosition)
      case None => NoClick
    else NoClick
  }

  /** The pause request published on Escape, ahead of everything else. */
  function PauseRequests(i: FrameInput): seq<Message> {
    if i.escapeUp then [Message(PauseGame, None)] else []
  }

  /** The inventory toggle published on `I`, skipped over the UI. */
  function ToggleRequests(i: FrameInput): seq<Message> {
    if !i.overUI && i.inventoryKeyUp then [Message(InventoryToggled, None)] else []
  }

  /** The cancel `ClearTarget` issues before a walk is absorbed by the walk's own cancel. */
  lemma {:induction false} WalkAbsorbsClear(s: MotorState, p: Vec3)
    ensures MovedToPoint(Cancelled(s), p) == MovedToPoint(s, p)
  {
    CancelIsIdempotent(s);
  }

  /** So is the cancel a change of target issues before the approach starts. */
  lemma {:induction false} RetargetAbsorbsClear(s: MotorState, t: Interactable, p: Vec3)
    ensures MovedToTarget(Cancelled(s), t, p) == MovedToTarget(s, t, p)
  {
    CancelIsIdempotent(s);
  }

  /**
   * Selecting the target that is already being approached restarts the
   * approach from scratch: the new state does not depend on the old task.
   */
  lemma ReselectRestarts(s: MotorState, s': MotorState, t: Interactable, p: Vec3)
    requires s.stoppingDistance == s'.stoppingDistance && s.eventData == s'.eventData
    ensures MovedToTarget(s, t, p) == MovedToTarget(s', t, p)
  {
  }

  class PlayerController {
    const self: ObjectId                // m_thisObject
    const motor: PlayerMotor?           // m_playerMotor
    const hasCamera: bool               // m_followCamera != null
    var target: Interactable?           // m_target

    ghost predicate Valid()
      reads this, motor
    {
      motor != null ==> motor.Valid()
    }

    /** The missing-components guard: it stops the frame only when both are missing. */
    predicate MissingComponents()
      reads this
    {
      motor == null && !hasCamera
    }

    /**
     * `Awake`: the camera falls back to the main camera and the motor to the
     * object's own component; both lookups are given as their outcome.
     */
    constructor (self: ObjectId, motor: PlayerMotor?, hasCamera: bool)
      requires motor != null ==> motor.Valid()
      ensures Valid() && this.self == self && this.motor == motor && this.hasCamera == hasCamera
      ensures target == null
    {
      this.self := self;
      this.motor := motor;
      this.hasCamera := hasCamera;
      target := null;
    }

    /**
     * `ClearTarget`: the held target, if any, has its interaction reset and is
     * forgotten; the motor's action is cancelled in any case.
     */
    method ClearTarget()
      requires Valid() && motor != null
      modifies this, motor, target
      ensures Valid() && target == null
      ensures old(target) != null ==> !old(target).hasInteracted
      ensures motor.State() == Cancelled(old(motor.State()))
    {
      if target != null {
        target.ResetInteractionState();
        target := null;
      }
      motor.CancelAction();
    }

    /**
     * `SetTarget(t)`, with `p` the position of `t`: a different target first
     * clears the held one; then the motor approaches `t` and the
     * interaction with `t` is reset, even when `t` was already held.
     */
    method SetTarget(t: Interactable, p: Vec3) returns (emitted: seq<Message>)
      requires Valid() && motor != null
      modifies this, motor, target, t
      ensures Valid() && target == t && !t.hasInteracted
      ensures old(target) != null && old(target) != t ==> !old(target).hasInteracted
      ensures (motor.State(), emitted) == MovedToTarget(old(motor.State()), t, p)
    {
      if t != target {
        ClearTarget();
        RetargetAbsorbsClear(old(motor.State()), t, p);
        target := t;
      }
      emitted := motor.MoveToTarget(target, p);
      t.ResetInteractionState();
    }

    /** The left click: a hit on the walkable layer clears the target and walks there; a miss does nothing. */
    method TryMoveToMousePoint(walkHit: Option<Vec3>) returns (emitted: seq<Message>)
      requires Valid() && hasCamera
      requires walkHit.Some? ==> motor != null
      modifies this, motor, target
      ensures Valid()
      ensures walkHit.None? ==> emitted == [] && target == old(target)
      ensures walkHit.None? && target != null ==> target.hasInteracted == old(target.hasInteracted)
      ensures walkHit.None? && motor != null ==> motor.State() == old(motor.State())
      ensures walkHit.Some? ==>
                && target == null
                && (old(target) != null ==> !old(target).hasInteracted)
                && (motor.State(), emitted) == MovedToPoint(old(motor.State()), walkHit.value)
    {
      emitted := [];
      if walkHit.Some? {
        ClearTarget();
        WalkAbsorbsClear(old(motor.State()), walkHit.value);
        emitted := motor.MoveToPoint(walkHit.value);
      }
    }

    /** The right click: only an object with an `Interactable` becomes the target. */
    method TryInteract(pick: Option<Interactable>, p: Vec3) returns (emitted: seq<Message>)
      requires Valid() && hasCamera
      requires pick.Some? ==> motor != null
      modifies this, motor, target, if pick.Some? then {pick.value} else {}
      ensures Valid()
      ensures pick.None? ==> emitted == [] && target == old(target)
      ensures pick.None? && target != null ==> target.hasInteracted == old(target.hasInteracted)
      ensures pick.None? && motor != null ==> motor.State() == old(motor.State())
      ensures pick.Some? ==>
                && target == pick.value && !pick.value.hasInteracted
                && (old(target) != null && old(target) != pick.value ==> !old(target).hasInteracted)
                && (motor.State(), emitted) == MovedToTarget(old(motor.State()), pick.value, p)
    {
      emitted := [];
      if pick.Some? {
        emitted := SetTarget(pick.value, p);
      }
    }

    /** What any frame may change: the held and the picked interactables and what they drive. */
    function Footprint(i: FrameInput): set<object>
      reads this
    {
      (if target != null then {target as object} + target.DerivedObjects() else {}) +
      (if i.pick.Some? then {i.pick.value as object} else {})
    }

    /** The held target, if any, is interacted with by the player from `distance` away. */
    method InteractWithTarget(distance: real) returns (held: seq<Message>)
      modifies if target != null then {target as object} + target.DerivedObjects() else {}
      ensures target == old(target)
      ensures old(target) == null ==> held == []
      ensures target != null ==>
                var fired := Fires(old(target.hasInteracted), Some(self), distance, target.interactRange);
                && target.hasInteracted == (old(target.hasInteracted) || fired)
                && (!fired ==> held == [] && unchanged(target.DerivedObjects()))
                && (fired ==> target.Interacted(Some(self), held))
    {
      held := [];
      if target != null {
        held := target.OnInteract(Some(self), distance);
      }
    }

    /** The part of a frame that the UI can block: the inventory key, then the click. */
    method HandleClicks(i: FrameInput) returns (emitted: seq<Message>, ghost moved: seq<Message>)
      requires Valid()
      requires !i.overUI && (i.leftDown || i.rightDown) ==> hasCamera
      requires ClickOf(i) != NoClick ==> motor != null
      modifies this, motor, target, if i.pick.Some? then {i.pick.value} else {}
      ensures Valid()
      ensures emitted == ToggleRequests(i) + moved
      ensures match ClickOf(i)
                case NoClick =>
                  && moved == [] && target == old(target)
                  && (target != null ==> target.hasInteracted == old(target.hasInteracted))
                  && (motor != null ==> motor.State() == old(motor.State()))
                case WalkTo(p) =>
                  && target == null
                  && (old(target) != null ==> !old(target).hasInteracted)
                  && (motor.State(), moved) == MovedToPoint(old(motor.State()), p)
                case Select(t, p) =>
                  && target == t && !t.hasInteracted
                  && (old(target) != null && old(target) != t ==> !old(target).hasInteracted)
                  && (motor.State(), moved) == MovedToTarget(old(motor.State()), t, p)
    {
      emitted, moved := [], [];
      if i.overUI {
        return;
      }
      if i.inventoryKeyUp {
        emitted := [Message(InventoryToggled, None)];
      }
      var answer: seq<Message> := [];
      if i.leftDown {
        answer := TryMoveToMousePoint(i.walkHit);
      } else if i.rightDown {
        answer := TryInteract(i.pick, i.pickPosition);
      }
      moved := answer;
      emitted := emitted + answer;
    }

    /**
     * `Update`.  Without both the motor and the camera the frame does
     * nothing.  Otherwise, in order: Escape publishes the pause request, the
     * held target is interacted with (it answers `held`), and, off the UI,
     * `I` publishes the inventory toggle and the click is handled (the motor
     * answers `moved`).  The source dereferences the camera for any click
     * off the UI and the motor for a click that hits.
     */
    method Update(i: FrameInput) returns (emitted: seq<Message>, held: seq<Message>, ghost moved: seq<Message>)
      requires Valid()
      requires !MissingComponents() && !i.overUI && (i.leftDown || i.rightDown) ==> hasCamera
      requires !MissingComponents() && ClickOf(i) != NoClick ==> motor != null
      modifies this, motor, Footprint(i)
      ensures Valid()
      ensures MissingComponents() ==> emitted == [] && held == [] && unchanged(this)
      ensures MissingComponents() && old(target) != null ==> unchanged(old(target)) && unchanged(old(target).DerivedObjects())
      ensures MissingComponents() && i.pick.Some? ==> unchanged(i.pick.value)
      ensures !MissingComponents() ==> emitted == PauseRequests(i) + held + ToggleRequests(i) + moved
      ensures !MissingComponents() && old(target) != null ==>
                var fired := Fires(old(target.hasInteracted), Some(self), i.targetDistance, old(target).interactRange);
                && (!fired ==> held == [] && unchanged(old(target).DerivedObjects()))
                && (fired ==> old(target).Interacted(Some(self), held))
                && (ClickOf(i) == NoClick ==> old(target).hasInteracted == (old(target.hasInteracted) || fired))
      ensures !MissingComponents() && old(target) == null ==> held == []
      ensures !MissingComponents() ==> match ClickOf(i)
                case NoClick => moved == [] && target == old(target) && (motor != null ==> motor.State() == old(motor.State()))
                case WalkTo(p) =>
                  && target == null
                  && (old(target) != null ==> !old(target).hasInteracted)
                  && (motor.State(), moved) == MovedToPoint(old(motor.State()), p)
                case Select(t, p) =>
                  && target == t && !t.hasInteracted
                  && (old(target) != null && old(target) != t ==> !old(target).hasInteracted)
                  && (motor.State(), moved) == MovedToTarget(old(motor.State()), t, p)
    {
      emitted, held, moved := [], [], [];
      if motor == null && !hasCamera {
        return;
      }
      emitted := PauseRequests(i);
      held := InteractWithTarget(i.targetDistance);
      var rest;
      rest, moved := HandleClicks(i);
      emitted := emitted + held + rest;
    }
  }
}

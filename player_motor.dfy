/**
 * The player's movement: a nav agent driven by at most one coroutine at a
 * time, either towards a fixed point or after an interactable target.  A
 * coroutine is an explicit task plus a `running` flag; `StartCoroutine`
 * runs the task up to its first `yield`, and each later frame resumes it
 * once through `Tick`.  The agent's `hasPath` and `remainingDistance`, and
 * whether the target still exists and where it is, are inputs of each tick.
 */
module PlayerMotors {
  import opened Engine
  import opened EventBus
  import opened Interactables

  /** The coroutine held in `m_currentCoroutine`. */
  datatype Task = ToPoint(point: Vec3) | ToTarget(target: Interactable)

  datatype MotorState = MotorState(
    task: Option<Task>,           // m_currentCoroutine
    running: bool,                // the coroutine is suspended at a yield and will resume
    stoppingDistance: real,       // the agent's stoppingDistance
    destination: Option<Vec3>,    // the agent's destination; None once the path is reset
    eventData: EventData)         // m_eventData

  /** What the agent reports when a tick resumes the coroutine. */
  datatype TickInput = TickInput(hasPath: bool, remaining: real, targetValid: bool, targetPosition: Vec3)

  /** Only a tracked task can be running. */
  predicate Coherent(s: MotorState) {
    s.running ==> s.task.Some?
  }

  /** `IsStopped`: no path, or close enough. */
  predicate Stopped(hasPath: bool, remaining: real, stoppingDistance: real) {
    !hasPath || remaining <= stoppingDistance
  }

  function MovedMessage(data: EventData): Message {
    Message(CharacterMoved, Some(data))
  }

  function StoppedMessage(data: EventData): Message {
    Message(CharacterStopped, Some(data))
  }

  /** `CancelAction`: the tracked task, if any, is stopped and forgotten. */
  function Cancelled(s: MotorState): (r: MotorState)
    ensures r.task == None && (Coherent(s) ==> !r.running)
    ensures r.stoppingDistance == s.stoppingDistance && r.destination == s.destination && r.eventData == s.eventData
    ensures s.task.None? ==> r == s
  {
    if s.task.Some? then s.(task := None, running := false) else s
  }

  /** `TriggerPlayerMovedEvent(p)`: the shared payload takes the new position and is published. */
  function Announced(s: MotorState, p: Vec3): (r: (MotorState, seq<Message>))
    ensures r.0.eventData == s.eventData.(targetPosition := p)
    ensures r.1 == [MovedMessage(r.0.eventData)]
  {
    var s1 := s.(eventData := s.eventData.(targetPosition := p));
    (s1, [MovedMessage(s1.eventData)])
  }

  /** `MoveToPoint(p)`: cancel, announce `p`, start the task, which sets the destination and yields. */
  function MovedToPoint(s: MotorState, p: Vec3): (r: (MotorState, seq<Message>))
    ensures r.0.task == Some(ToPoint(p)) && r.0.running && r.0.destination == Some(p)
    ensures r.0.stoppingDistance == s.stoppingDistance
    ensures r.0.eventData == s.eventData.(targetPosition := p)
    ensures r.1 == [MovedMessage(r.0.eventData)]
  {
    var s1 := Cancelled(s).(task := Some(ToPoint(p)));
    var a := Announced(s1, p);
    (a.0.(destination := Some(p), running := true), a.1)
  }

  /**
   * The target task up to its first yield.  A target that is gone already
   * stops at once, leaving the stopping distance alone; otherwise the
   * stopping distance becomes the target's range and the first iteration
   * heads for the target and announces it.
   */
  function BeganTarget(s: MotorState, t: Interactable, valid: bool, p: Vec3): (r: (MotorState, seq<Message>))
    ensures !valid ==> !r.0.running && r.0.stoppingDistance == s.stoppingDistance && r.1 == [StoppedMessage(s.eventData)]
    ensures valid ==> r.0.running && r.0.stoppingDistance == t.interactRange && r.0.destination == Some(p)
    ensures valid ==> r.1 == [MovedMessage(r.0.eventData)] && r.0.eventData == s.eventData.(targetPosition := p)
    ensures r.0.task == s.task
  {
    if !valid then (s.(running := false), [StoppedMessage(s.eventData)])
    else
      var s1 := s.(stoppingDistance := t.interactRange, destination := Some(p));
      var a := Announced(s1, p);
      (a.0.(running := true), a.1)
  }

  /** `MoveToTarget(t)` for a live target at `p`: cancel, announce `p`, start the task. */
  function MovedToTarget(s: MotorState, t: Interactable, p: Vec3): (r: (MotorState, seq<Message>))
    ensures r.0.task == Some(ToTarget(t)) && r.0.running && r.0.destination == Some(p)
    ensures r.0.stoppingDistance == t.interactRange
    ensures r.0.eventData == s.eventData.(targetPosition := p)
    ensures r.1 == [MovedMessage(r.0.eventData), MovedMessage(r.0.eventData)]
  {
    var s1 := Cancelled(s).(task := Some(ToTarget(t)));
    var a := Announced(s1, p);
    var b := BeganTarget(a.0, t, true, p);
    (b.0, a.1 + b.1)
  }

  /**
   * One resumption of the running task.  The loop condition is tested
   * first; a point task that has not arrived sets its destination again,
   * a target task also needs its target to exist and announces the new
   * position.  On leaving the loop the task announces that it stopped, and a
   * target task also resets the path and the stopping distance.
   */
  function Ticked(s: MotorState, i: TickInput): (r: (MotorState, seq<Message>))
    ensures !s.running ==> r == (s, [])
    ensures r.0.task == s.task && (r.0.running ==> s.running)
    ensures s.running && s.task.Some? && s.task.value.ToPoint? ==>
              if Stopped(i.hasPath, i.remaining, s.stoppingDistance)
              then !r.0.running && r.1 == [StoppedMessage(s.eventData)]
              else r == (s.(destination := Some(s.task.value.point)), [])
    ensures s.running && s.task.Some? && s.task.value.ToTarget? ==>
              if Stopped(i.hasPath, i.remaining, s.stoppingDistance) || !i.targetValid
              then && !r.0.running && r.0.destination == None && r.0.stoppingDistance == 0.0
                   && r.1 == [StoppedMessage(s.eventData)]
              else && r.0.running && r.0.destination == Some(i.targetPosition)
                   && r.0.eventData == s.eventData.(targetPosition := i.targetPosition)
                   && r.1 == [MovedMessage(r.0.eventData)]
  {
    if !s.running || s.task.None? then (s, [])
    else
      var stopped := Stopped(i.hasPath, i.remaining, s.stoppingDistance);
      match s.task.value
      case ToPoint(p) =>
        if stopped then (s.(running := false), [StoppedMessage(s.eventData)])
        else (s.(destination := Some(p)), [])
      case ToTarget(t) =>
        if stopped || !i.targetValid then
          (s.(running := false, destination := None, stoppingDistance := 0.0), [StoppedMessage(s.eventData)])
        else
          var s1 := s.(destination := Some(i.targetPosition));
          Announced(s1, i.targetPosition)
  }

  /** A run of frames: each resumes the task once. */
  function Run(s: MotorState, inputs: seq<TickInput>): (r: (MotorState, seq<Message>))
    decreases |inputs|
  {
    if inputs == [] then (s, [])
    else
      var t := Ticked(s, inputs[0]);
      var rest := Run(t.0, inputs[1..]);
      (rest.0, t.1 + rest.1)
  }

  /** Cancelling twice is cancelling once, and cancelling announces nothing. */
  lemma CancelIsIdempotent(s: MotorState)
    ensures Cancelled(Cancelled(s)) == Cancelled(s)
  {
  }

  /**
   * Over any run of frames a task announces only moves and stops, stops at
   * most once and then falls silent: a stop is the last message, it is there
   * exactly when the task finished during the run, and a finished task
   * neither changes nor announces anything.
   */
  lemma {:induction false} StopsAtMostOnce(s: MotorState, inputs: seq<TickInput>)
    requires Coherent(s)
    ensures var r := Run(s, inputs);
            && Coherent(r.0)
            && (forall k :: 0 <= k < |r.1| ==> r.1[k].id == CharacterMoved || r.1[k].id == CharacterStopped)
            && (forall k :: 0 <= k < |r.1| && r.1[k].id == CharacterStopped ==> k == |r.1| - 1)
            && (s.running && !r.0.running <==> |r.1| > 0 && r.1[|r.1| - 1].id == CharacterStopped)
            && (!s.running ==> r == (s, []))
    decreases |inputs|
  {
    if inputs != [] {
      var t := Ticked(s, inputs[0]);
      StopsAtMostOnce(t.0, inputs[1..]);
      var rest := Run(t.0, inputs[1..]);
      assert Run(s, inputs) == (rest.0, t.1 + rest.1);
      if t.0.running {
        assert forall k :: 0 <= k < |t.1| ==> t.1[k].id == CharacterMoved;
      } else if s.running {
        assert t.1 == [StoppedMessage(s.eventData)];
        assert rest == (t.0, []);
      }
    }
  }

  class PlayerMotor {
    const self: ObjectId
    var task: Option<Task>
    var running: bool
    var stoppingDistance: real
    var destination: Option<Vec3>
    var eventData: EventData

    function State(): MotorState
      reads this
    {
      MotorState(task, running, stoppingDistance, destination, eventData)
    }

    ghost predicate Valid()
      reads this
    {
      Coherent(State())
    }

    /** `Awake`: the payload names the player as its trigger; the agent keeps its configured stopping distance. */
    constructor (self: ObjectId, stoppingDistance: real)
      ensures Valid() && this.self == self
      ensures State() == MotorState(None, false, stoppingDistance, None, BlankData.(trigger := Some(self)))
    {
      this.self := self;
      task := None;
      running := false;
      this.stoppingDistance := stoppingDistance;
      destination := None;
      eventData := BlankData.(trigger := Some(self));
    }

    /** `IsStopped` for the agent's current `hasPath` and `remainingDistance`. */
    method IsStopped(hasPath: bool, remaining: real) returns (stopped: bool)
      ensures stopped <==> !hasPath || remaining <= stoppingDistance
    {
      var isCloseEnough := false;
      if remaining <= stoppingDistance {
        isCloseEnough := true;
      }
      return !hasPath || isCloseEnough;
    }

    method CancelAction()
      modifies this
      ensures State() == Cancelled(old(State()))
    {
      if task.Some? {
        running := false;
        task := None;
      }
    }

    method MoveToPoint(p: Vec3) returns (emitted: seq<Message>)
      requires Valid()
      modifies this
      ensures Valid()
      ensures (State(), emitted) == MovedToPoint(old(State()), p)
    {
      CancelAction();
      task := Some(ToPoint(p));
      emitted := TriggerPlayerMovedEvent(p);
      // The task runs up to its first yield.
      destination := Some(p);
      running := true;
    }

    /** `MoveToTarget(t)`, for a live target at `p` (the source dereferences it). */
    method MoveToTarget(t: Interactable, p: Vec3) returns (emitted: seq<Message>)
      requires Valid()
      modifies this
      ensures Valid()
      ensures (State(), emitted) == MovedToTarget(old(State()), t, p)
    {
      CancelAction();
      task := Some(ToTarget(t));
      emitted := TriggerPlayerMovedEvent(p);
      // The task runs up to its first yield; the target still exists.
      stoppingDistance := t.interactRange;
      destination := Some(p);
      var more := TriggerPlayerMovedEvent(p);
      emitted := emitted + more;
      running := true;
    }

    /** The frame's resumption of the running task, if any. */
    method Tick(i: TickInput) returns (emitted: seq<Message>)
      requires Valid()
      modifies this
      ensures Valid()
      ensures (State(), emitted) == Ticked(old(State()), i)
    {
      emitted := [];
      if !running || task.None? {
        return;
      }
      var stopped := IsStopped(i.hasPath, i.remaining);
      match task.value
      case ToPoint(p) =>
        if stopped {
          emitted := TriggerPlayerStoppedEvent();
          running := false;
        } else {
          destination := Some(p);
        }
      case ToTarget(t) =>
        if stopped || !i.targetValid {
          emitted := TriggerPlayerStoppedEvent();
          destination := None;
          stoppingDistance := 0.0;
          running := false;
        } else {
          destination := Some(i.targetPosition);
          emitted := TriggerPlayerMovedEvent(i.targetPosition);
        }
    }

    method TriggerPlayerMovedEvent(p: Vec3) returns (emitted: seq<Message>)
      modifies this
      ensures (State(), emitted) == Announced(old(State()), p)
    {
      eventData := eventData.(targetPosition := p);
      emitted := [MovedMessage(eventData)];
    }

    method TriggerPlayerStoppedEvent() returns (emitted: seq<Message>)
      ensures emitted == [StoppedMessage(eventData)]
    {
      emitted := [StoppedMessage(eventData)];
    }
  }
}

/**
 * The menu stack and its four menus.  The manager keeps the open menus on
 * a stack whose top is the only one shown; pushing and popping runs the
 * menus' enter and exit hooks, which pause the game and restore the time
 * scale it had.  The game-wide time scale is a `GameClock`, the static
 * `instance` a `MenuManagerSlot`, and what the buttons ask of the game
 * manager (restart, quit) is their answer.
 */
module Menus {
  import opened Engine
  import opened EventBus

  /** The closed set of menus. */
  datatype MenuKind = MainMenu | PauseMenu | TutorialMenu | GameOverMenu

  /** `Time.timeScale`. */
  class GameClock {
    var timeScale: real

    constructor (timeScale: real)
      ensures this.timeScale == timeScale
    {
      this.timeScale := timeScale;
    }
  }

  /**
   * `OnEnterMenu` of a menu of this kind, on its recorded time scale and the
   * current one: the main menu just pauses, the others record the current
   * scale first.  The answer is the recorded and the new current scale.
   */
  function EnterHook(kind: MenuKind, saved: real, scale: real): (real, real) {
    if kind == MainMenu then (saved, 0.0) else (scale, 0.0)
  }

  /** `OnExitMenu`: the main menu sets the game running, the others put back the recorded scale. */
  function ExitHook(kind: MenuKind, saved: real, scale: real): real {
    if kind == MainMenu then 1.0 else saved
  }

  /** Entering any menu pauses the game. */
  lemma EnterPauses(kind: MenuKind, saved: real, scale: real)
    ensures EnterHook(kind, saved, scale).1 == 0.0
    ensures kind != MainMenu ==> EnterHook(kind, saved, scale).0 == scale
  {
  }

  /**
   * For the pause, tutorial and game-over menus, leaving undoes entering:
   * the time scale is the one from before, whatever happened to it in
   * between; leaving the main menu always sets the game running.
   */
  lemma ExitUndoesEnter(kind: MenuKind, saved: real, scale: real, between: real)
    ensures kind != MainMenu ==> ExitHook(kind, EnterHook(kind, saved, scale).0, between) == scale
    ensures kind == MainMenu ==> ExitHook(kind, EnterHook(kind, saved, scale).0, between) == 1.0
  {
  }

  /** The time scale after a push: the old top, if any, is left, then the new menu entered. */
  function PushedScale(top: Option<(MenuKind, real)>, scale: real): real {
    match top
    case None => scale
    case Some(t) => ExitHook(t.0, t.1, scale)
  }

  /**
   * The tutorial opened over the main menu: leaving the main menu sets the
   * game running and the tutorial records that, so the game is paused while
   * the tutorial is shown, running for the moment the tutorial closes and
   * paused again once the main menu is back.
   */
  lemma TutorialOverMain(mainSaved: real, tutorialSaved: real, scale: real)
    ensures var mid := PushedScale(Some((MainMenu, mainSaved)), scale);
            var entered := EnterHook(TutorialMenu, tutorialSaved, mid);
            var left := ExitHook(TutorialMenu, entered.0, entered.1);
            && mid == 1.0 && entered.1 == 0.0
            && left == 1.0 && EnterHook(MainMenu, mainSaved, left).1 == 0.0
  {
  }

  class Menu {
    const self: ObjectId
    const kind: MenuKind
    const tutorialMenu: Menu?          // m_tutorialMenu (main and pause menus)
    const gameOverMenu: Menu?          // m_gameOverMenu (pause menu)
    var previousTimeScale: real        // m_previousTimeScale (all but the main menu)
    var active: bool                   // gameObject.activeSelf

    /** A menu as placed in the scene, with its recorded time scale at 0. */
    constructor (self: ObjectId, kind: MenuKind, tutorialMenu: Menu?, gameOverMenu: Menu?, active: bool)
      ensures this.self == self && this.kind == kind && this.active == active && previousTimeScale == 0.0
      ensures this.tutorialMenu == tutorialMenu && this.gameOverMenu == gameOverMenu
    {
      this.self := self;
      this.kind := kind;
      this.tutorialMenu := tutorialMenu;
      this.gameOverMenu := gameOverMenu;
      previousTimeScale := 0.0;
      this.active := active;
    }

    /** `MenuPause.Awake`: the pause menu listens for the pause request and hides itself. */
    constructor Pause(self: ObjectId, tutorialMenu: Menu?, gameOverMenu: Menu?, bus: EventManager)
      requires bus.Valid()
      modifies bus
      ensures bus.Valid()
      ensures this.self == self && kind == PauseMenu && !active && previousTimeScale == 0.0
      ensures this.tutorialMenu == tutorialMenu && this.gameOverMenu == gameOverMenu
      ensures bus.listeners == Subscribed(old(bus.listeners), PauseGame, Callback(self, PauseOnPauseGame))
    {
      this.self := self;
      kind := PauseMenu;
      this.tutorialMenu := tutorialMenu;
      this.gameOverMenu := gameOverMenu;
      previousTimeScale := 0.0;
      active := false;
      new;
      bus.AddListener(PauseGame, Callback(self, PauseOnPauseGame));
    }

    /** `MenuPause.OnDestroy`: the pause listener is removed again. */
    method OnDestroy(bus: EventManager)
      requires kind == PauseMenu && bus.Valid()
      modifies bus
      ensures bus.Valid()
      ensures bus.listeners == Unsubscribed(old(bus.listeners), PauseGame, Callback(self, PauseOnPauseGame))
    {
      bus.RemoveListener(PauseGame, Callback(self, PauseOnPauseGame));
    }

    method OnEnterMenu(clock: GameClock)
      modifies this, clock
      ensures (previousTimeScale, clock.timeScale) == EnterHook(kind, old(previousTimeScale), old(clock.timeScale))
      ensures active == old(active)
    {
      if kind != MainMenu {
        previousTimeScale := clock.timeScale;
      }
      clock.timeScale := 0.0;
    }

    method OnExitMenu(clock: GameClock)
      modifies clock
      ensures clock.timeScale == ExitHook(kind, previousTimeScale, old(clock.timeScale))
    {
      if kind == MainMenu {
        clock.timeScale := 1.0;
      } else {
        clock.timeScale := previousTimeScale;
      }
    }

    /** `OnTutorialSelected` (main and pause menus): pushes the tutorial, when there is one and a manager. */
    method OnTutorialSelected(slot: MenuManagerSlot, clock: GameClock)
      requires kind == MainMenu || kind == PauseMenu
      requires slot.instance != null ==> slot.instance.Valid()
      modifies if slot.instance != null then {slot.instance as object, clock} + slot.instance.Touched(tutorialMenu) else {}
      ensures slot.instance != null ==> slot.instance.Valid()
      ensures tutorialMenu == null && slot.instance != null ==>
                unchanged(slot.instance) && unchanged(clock) && unchanged(set m | m in slot.instance.stack)
      ensures tutorialMenu != null && slot.instance != null ==>
                slot.instance.Pushed(old(slot.instance.stack), tutorialMenu, clock)
    {
      if tutorialMenu == null {
        return;
      }
      if slot.instance != null {
        slot.instance.PushMenu(tutorialMenu, clock);
      }
    }

    /** `MenuPause.OnQuitSelected`: pushes the game-over menu, when there is one and a manager. */
    method OnQuitSelected(slot: MenuManagerSlot, clock: GameClock)
      requires kind == PauseMenu
      requires slot.instance != null ==> slot.instance.Valid()
      modifies if slot.instance != null then {slot.instance as object, clock} + slot.instance.Touched(gameOverMenu) else {}
      ensures slot.instance != null ==> slot.instance.Valid()
      ensures gameOverMenu == null && slot.instance != null ==>
                unchanged(slot.instance) && unchanged(clock) && unchanged(set m | m in slot.instance.stack)
      ensures gameOverMenu != null && slot.instance != null ==>
                slot.instance.Pushed(old(slot.instance.stack), gameOverMenu, clock)
    {
      if gameOverMenu == null {
        return;
      }
      if slot.instance != null {
        slot.instance.PushMenu(gameOverMenu, clock);
      }
    }

    /**
     * `OnPlaySelected` of the main menu and `OnReturnSelected` of the pause
     * and tutorial menus: pops the top menu when there is a manager (whose
     * stack must then hold one, since popping an empty stack throws).
     */
    method OnReturnSelected(slot: MenuManagerSlot, clock: GameClock)
      requires kind == MainMenu || kind == PauseMenu || kind == TutorialMenu
      requires slot.instance != null ==> slot.instance.Valid() && |slot.instance.stack| > 0
      modifies if slot.instance != null then {slot.instance as object, clock} + set m | m in slot.instance.stack else {}
      ensures slot.instance != null ==> slot.instance.Valid()
      ensures slot.instance != null ==> slot.instance.Popped(old(slot.instance.stack), clock)
    {
      if slot.instance != null {
        slot.instance.PopMenu(clock);
      }
    }

    /**
     * The buttons that hand over to the game manager (return to the main
     * scene, quit): the answer is whether the request is made, which needs
     * a game manager.
     */
    method OnGameManagerRequest(gameManagerExists: bool) returns (requested: bool)
      requires kind == MainMenu || kind == PauseMenu || kind == GameOverMenu
      ensures requested == gameManagerExists
    {
      requested := false;
      if gameManagerExists {
        requested := true;
      }
    }

    /**
     * `MenuPause.OnPauseGame`: with a manager and nothing open the pause menu
     * opens; otherwise, when it is the menu shown, it closes; otherwise
     * nothing happens.  Being shown while there is no manager would
     * dereference the missing manager, so the source rules it out.
     */
    method OnPauseGame(slot: MenuManagerSlot, clock: GameClock)
      requires kind == PauseMenu
      requires slot.instance != null ==> slot.instance.Valid()
      requires slot.instance == null ==> !active
      modifies if slot.instance != null then {slot.instance as object, clock, this} + set m | m in slot.instance.stack else {}
      ensures slot.instance != null ==> slot.instance.Valid()
      ensures slot.instance != null && old(|slot.instance.stack|) == 0 ==> slot.instance.Pushed([], this, clock)
      ensures slot.instance != null && old(|slot.instance.stack|) > 0 && old(active) ==>
                slot.instance.Popped(old(slot.instance.stack), clock)
      ensures slot.instance != null && old(|slot.instance.stack|) > 0 && !old(active) ==>
                unchanged(slot.instance) && unchanged(clock) && unchanged(this)
                && unchanged(set m | m in slot.instance.stack)
    {
      if slot.instance != null {
        var empty := slot.instance.IsEmpty();
        if empty {
          slot.instance.PushMenu(this, clock);
          return;
        }
      }
      if active {
        slot.instance.PopMenu(clock);
      }
    }
  }

  /** The static `MenuManager.instance`. */
  class MenuManagerSlot {
    var instance: MenuManager?

    constructor ()
      ensures instance == null
    {
      instance := null;
    }
  }

  class MenuManager {
    const initialMenu: Menu?     // m_initialMenu
    var stack: seq<Menu>         // m_menuStack, top last
    var destroyed: bool

    /** Exactly the top of the stack is shown. */
    ghost predicate Valid()
      reads this, stack
    {
      forall i :: 0 <= i < |stack| ==> (stack[i].active <==> stack[i] == stack[|stack| - 1])
    }

    /** The objects a push of `menu` may change: the menus on the stack and `menu`. */
    function Touched(menu: Menu?): set<object>
      reads this
    {
      (set m | m in stack) + (if menu != null then {menu as object} else {})
    }

    constructor (initialMenu: Menu?)
      ensures this.initialMenu == initialMenu && stack == [] && !destroyed && Valid()
    {
      this.initialMenu := initialMenu;
      stack := [];
      destroyed := false;
    }

    /**
     * `Awake`: a second manager destroys itself and pushes nothing; the first
     * becomes the instance and pushes the initial menu, which must then be
     * set (pushing null dereferences it).
     */
    method Awake(slot: MenuManagerSlot, clock: GameClock)
      requires Valid() && stack == [] && !destroyed
      requires slot.instance == null ==> initialMenu != null
      modifies this, slot, clock, initialMenu
      ensures Valid()
      ensures old(slot.instance) != null ==> destroyed && stack == [] && slot.instance == old(slot.instance)
      ensures old(slot.instance) != null ==> unchanged(clock) && (initialMenu != null ==> unchanged(initialMenu))
      ensures old(slot.instance) == null ==> !destroyed && slot.instance == this && stack == [initialMenu]
      ensures old(slot.instance) == null ==> initialMenu.active
      ensures old(slot.instance) == null ==>
                (initialMenu.previousTimeScale, clock.timeScale)
                  == EnterHook(initialMenu.kind, old(initialMenu.previousTimeScale), old(clock.timeScale))
    {
      if slot.instance != null {
        destroyed := true;
        return;
      }
      slot.instance := this;
      PushMenu(initialMenu, clock);
    }

    /**
     * What a push of `menu` onto the stack `before` leaves, against the state
     * before it: `menu` on top and shown, the old top left (its exit hook run
     * on the clock) and hidden, `menu` entered, and nothing else recorded on
     * the stack changed.
     */
    twostate predicate Pushed(before: seq<Menu>, menu: Menu, clock: GameClock)
      reads this, clock, menu, before
    {
      && before == old(stack)
      && stack == before + [menu] && destroyed == old(destroyed)
      && menu.active
      && (forall m :: m in before && m != menu ==> !m.active)
      && (forall m :: m in before && m != menu ==> m.previousTimeScale == old(m.previousTimeScale))
      && var top := if |before| > 0 then Some((before[|before| - 1].kind, old(before[|before| - 1].previousTimeScale))) else None;
         (menu.previousTimeScale, clock.timeScale)
           == EnterHook(menu.kind, old(menu.previousTimeScale), PushedScale(top, old(clock.timeScale)))
    }

    /**
     * What a pop of the non-empty stack `before` leaves, against the state
     * before it: the top is gone and, unless it is still lower down, hidden;
     * its exit hook has run on the clock; the new top, if any, is shown and
     * entered; everything below it is hidden and keeps its recorded scale.
     */
    twostate predicate Popped(before: seq<Menu>, clock: GameClock)
      reads this, clock, before, stack
    {
      && |before| > 0 && before == old(stack)
      && stack == before[..|before| - 1] && destroyed == old(destroyed)
      && (before[|before| - 1] !in stack ==> !before[|before| - 1].active)
      && (forall m :: m in stack && m != stack[|stack| - 1] ==> !m.active)
      && (forall m :: m in before && (stack == [] || m != stack[|stack| - 1]) ==>
            m.previousTimeScale == old(m.previousTimeScale))
      && var popped := before[|before| - 1];
         var left := ExitHook(popped.kind, old(popped.previousTimeScale), old(clock.timeScale));
         if stack == [] then clock.timeScale == left
         else
           var top := stack[|stack| - 1];
           && top.active
           && (top.previousTimeScale, clock.timeScale) == EnterHook(top.kind, old(top.previousTimeScale), left)
    }

    /**
     * `PushMenu`: the old top, if any, is left and hidden, then `menu` goes
     * on top, is shown and entered.  Nothing else on the stack changes.
     */
    method PushMenu(menu: Menu, clock: GameClock)
      requires Valid()
      modifies this, clock, menu, set m | m in stack
      ensures Valid()
      ensures Pushed(old(stack), menu, clock)
    {
      if |stack| > 0 {
        var current := stack[|stack| - 1];
        current.OnExitMenu(clock);
        current.active := false;
      }
      stack := stack + [menu];
      menu.active := true;
      menu.OnEnterMenu(clock);
    }

    /**
     * `PopMenu`, on a stack that holds a menu: the top is left and hidden,
     * then the new top, if any, is entered and shown.  Nothing else on the
     * stack changes.
     */
    method PopMenu(clock: GameClock)
      requires Valid() && |stack| > 0
      modifies this, clock, set m | m in stack
      ensures Valid()
      ensures Popped(old(stack), clock)
    {
      var current := stack[|stack| - 1];
      stack := stack[..|stack| - 1];
      current.OnExitMenu(clock);
      current.active := false;
      if |stack| > 0 {
        var next := stack[|stack| - 1];
        next.OnEnterMenu(clock);
        next.active := true;
      }
    }

    method IsEmpty() returns (empty: bool)
      ensures empty <==> |stack| == 0
    {
      return |stack| == 0;
    }
  }

  /**
   * Opening a menu and closing it again puts the stack back as it was and
   * shows the old top again.  Over an empty stack, a menu other than the
   * main menu also gives back the time scale from before.
   */
  method PushThenPop(manager: MenuManager, menu: Menu, clock: GameClock)
    requires manager.Valid()
    modifies manager, clock, menu, set m | m in manager.stack
    ensures manager.Valid() && manager.stack == old(manager.stack)
    ensures manager.stack != [] ==> manager.stack[|manager.stack| - 1].active && clock.timeScale == 0.0
    ensures manager.stack == [] ==> !menu.active
    ensures manager.stack == [] && menu.kind != MainMenu ==> clock.timeScale == old(clock.timeScale)
  {
    manager.PushMenu(menu, clock);
    manager.PopMenu(clock);
  }

  /**
   * Pressing Escape twice with nothing open: the pause menu opens and
   * closes again, the stack is empty again and the game runs at the time
   * scale it had before.
   */
  method PauseTwice(pause: Menu, slot: MenuManagerSlot, clock: GameClock)
    requires pause.kind == PauseMenu && slot.instance != null
    requires slot.instance.Valid() && slot.instance.stack == []
    modifies slot.instance, clock, pause
    ensures slot.instance.Valid() && slot.instance.stack == []
    ensures !pause.active && clock.timeScale == old(clock.timeScale)
  {
    pause.OnPauseGame(slot, clock);
    pause.OnPauseGame(slot, clock);
  }
}

/**
 * The navigation shell: which mini-game is on screen (none means the menu),
 * the idle-warning flag, and the inactivity timer that drives that flag.
 */
module AppShell {
  import opened Wrappers
  import opened Timers
  import opened Inactivity

  datatype Game = Quiz | Stars | Fortune

  /** What the shell renders. */
  datatype Screen = Menu | QuizScreen | StarsScreen | FortuneScreen

  /** The screen is chosen by `currentGame` alone, and `null` selects the menu. */
  function ScreenFor(currentGame: Option<Game>): (s: Screen)
    ensures s == Menu <==> currentGame == None
    ensures s == QuizScreen <==> currentGame == Some(Quiz)
    ensures s == StarsScreen <==> currentGame == Some(Stars)
    ensures s == FortuneScreen <==> currentGame == Some(Fortune)
  {
    match currentGame
    case None => Menu
    case Some(Quiz) => QuizScreen
    case Some(Stars) => StarsScreen
    case Some(Fortune) => FortuneScreen
  }

  /** Different values of `currentGame` render different screens. */
  lemma ScreenForInjective(g: Option<Game>, h: Option<Game>)
    requires ScreenFor(g) == ScreenFor(h)
    ensures g == h
  {
  }

  class App {
    var currentGame: Option<Game>
    var showWarning: bool
    /** The inactivity hook created with the default delays. */
    const timer: InactivityTimer

    ghost predicate Valid()
      reads this, timer
    {
      && timer.Valid()
      && timer.warnDelay == DefaultWarnDelay
      && timer.timeoutDelay == DefaultTimeoutDelay
    }

    /** First render and mount at instant `start`: the menu, no warning, both timers armed. */
    constructor (start: int)
      ensures Valid() && fresh(timer)
      ensures currentGame == None && !showWarning
      ensures timer.now == start
      ensures timer.pending == [Timer(1, start + DefaultWarnDelay, Warn), Timer(2, start + DefaultTimeoutDelay, Timeout)]
    {
      currentGame := None;
      showWarning := false;
      var t := new InactivityTimer(DefaultWarnDelay, DefaultTimeoutDelay, start);
      t.Mount();
      timer := t;
    }

    /** A menu button. Buttons exist only on the menu screen. */
    method Choose(g: Game)
      requires Valid()
      requires currentGame == None
      modifies this
      ensures Valid()
      ensures currentGame == Some(g) && showWarning == old(showWarning)
    {
      currentGame := Some(g);
    }

    /** `onBack`, handed to every game: back to the menu, whatever was on screen. */
    method OnBack()
      requires Valid()
      modifies this
      ensures Valid()
      ensures currentGame == None && showWarning == old(showWarning)
    {
      currentGame := None;
    }

    /**
     * A touch (start or move). The inactivity handlers are spread onto the
     * menu's root view only, so a touch inside a game leaves the timers as
     * they are. A touch does not hide a warning already shown.
     */
    method Touch()
      requires Valid()
      modifies timer
      ensures Valid()
      ensures currentGame == old(currentGame) && showWarning == old(showWarning)
      ensures old(currentGame) == None ==>
        && timer.now == old(timer.now)
        && timer.pending == [Timer(old(timer.nextId), timer.now + DefaultWarnDelay, Warn),
                             Timer(old(timer.nextId) + 1, timer.now + DefaultTimeoutDelay, Timeout)]
        && timer.warnRef == Some(old(timer.nextId)) && timer.timeoutRef == Some(old(timer.nextId) + 1)
        && timer.nextId == old(timer.nextId) + 2
      ensures old(currentGame) != None ==> unchanged(timer)
    {
      if currentGame == None {
        timer.OnTouchStart();
      }
    }

    /** Time passes up to `t` without reaching a pending deadline. */
    method Wait(t: int)
      requires Valid()
      requires timer.now <= t && NotBefore(timer.pending, t)
      modifies timer
      ensures Valid()
      ensures timer.now == t && timer.pending == old(timer.pending)
      ensures currentGame == old(currentGame) && showWarning == old(showWarning)
    {
      timer.Advance(t);
    }

    /**
     * The next inactivity timer fires and the clock moves to its deadline.
     * `onWarn` shows the warning; `onTimeout` hides it and, despite the
     * comment at that callback, does not go back to the menu: the game stays
     * on screen.
     */
    method FireTimer(k: nat) returns (s: Signal)
      requires Valid()
      requires IsNext(timer.pending, k)
      modifies this, timer
      ensures Valid()
      ensures s == old(timer.pending[k].event) && timer.now == old(timer.pending[k].due)
      ensures timer.warnRef == old(timer.warnRef) && timer.timeoutRef == old(timer.timeoutRef) && timer.nextId == old(timer.nextId)
      ensures timer.pending == Without(old(timer.pending), k)
      ensures currentGame == old(currentGame)
      ensures showWarning == (s == Warn)
    {
      s := timer.Fire(k);
      match s
      case Warn => showWarning := true;
      case Timeout => showWarning := false;
    }
  }

  /**
   * Idle inside a game: the warning and then the timeout fire while the
   * game stays on screen, and afterwards nothing is armed, because touches
   * inside the game never reach the inactivity handlers.
   */
  method IdleInGameScenario()
  {
    var app := new App(0);
    app.Choose(Stars);
    app.Touch();
    var s := app.FireTimer(0);
    assert s == Warn && app.showWarning && app.currentGame == Some(Stars);
    s := app.FireTimer(0);
    assert s == Timeout && !app.showWarning && app.currentGame == Some(Stars);
    assert app.timer.pending == [];
    app.OnBack();
    app.OnBack();
    assert app.currentGame == None;
  }
}

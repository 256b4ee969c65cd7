/**
 * `GameStateManager`: the single authority over the game's phase. A state
 * change runs the exit and entry actions of the two states, sets the global
 * time scale and notifies listeners.
 */
module GameStateManager {
  import GameEvents

  datatype GameState = Menu | Playing | Paused | GameOver | Loading | Victory

  /** What the manager announces: its own instance events, or a signal on the global hub. */
  datatype Notice =
    | OnStateChanged(previous: GameState, next: GameState)
    | OnGameStarted
    | OnGameEnded
    | Raised(e: GameEvents.Event)

  /** The announcements that entering `s` makes (the `OnStateEnter` switch). */
  function EnterNotices(s: GameState): (r: seq<Notice>)
    ensures OnGameStarted in r <==> s == Playing
    ensures OnGameEnded in r <==> s == GameOver
    ensures Raised(GameEvents.GameOver) in r <==> s == GameOver
  {
    match s
    case Playing => [OnGameStarted]
    case GameOver => [OnGameEnded, Raised(GameEvents.GameOver)]
    case _ => []
  }

  /** The time scale after entering `s`, when it was `before`: frozen while paused, normal in play, game over and loading. */
  function TimeScaleOnEnter(s: GameState, before: real): (r: real)
    ensures s == Paused ==> r == 0.0
    ensures s in {Playing, GameOver, Loading} ==> r == 1.0
    ensures s in {Menu, Victory} ==> r == before
  {
    match s
    case Playing => 1.0
    case Paused => 0.0
    case GameOver => 1.0
    case Loading => 1.0
    case _ => before
  }

  class GameStateManager {
    var currentState: GameState
    /** `Time.timeScale`, which only this manager sets among the modelled components. */
    var timeScale: real
    /** True after `Start` has subscribed the handlers to the global hub. */
    var subscribed: bool
    ghost var notices: seq<Notice>

    /** The time scale agrees with the state: 0 while paused, 1 while playing, over or loading. */
    ghost predicate Valid()
      reads this
    {
      && (currentState == Paused ==> timeScale == 0.0)
      && (currentState in {Playing, GameOver, Loading} ==> timeScale == 1.0)
    }

    /** `IsPlaying`. */
    predicate IsPlaying()
      reads this
      ensures IsPlaying() <==> currentState == Playing
    {
      currentState == Playing
    }

    /** `IsPaused`. */
    predicate IsPaused()
      reads this
      ensures IsPaused() <==> currentState == Paused
    {
      currentState == Paused
    }

    /** `IsGameOver`. */
    predicate IsGameOver()
      reads this
      ensures IsGameOver() <==> currentState == GameOver
    {
      currentState == GameOver
    }

    /** `Awake`: the serialized initial state is `Menu`; `timeScale` is the engine's current value. */
    constructor (timeScale: real)
      ensures currentState == Menu && this.timeScale == timeScale
      ensures !subscribed && notices == []
      ensures Valid()
    {
      currentState := Menu;
      this.timeScale := timeScale;
      subscribed := false;
      notices := [];
    }

    /** `Start`: subscribes to the hub, then enters `Playing`. */
    method Start()
      requires Valid()
      modifies this
      ensures Valid() && subscribed && currentState == Playing && timeScale == 1.0
      ensures old(currentState) == Playing ==> notices == old(notices)
      ensures old(currentState) != Playing ==>
        notices == old(notices) + [OnGameStarted, OnStateChanged(old(currentState), Playing)]
    {
      subscribed := true;
      ChangeState(Playing);
    }

    /** `ChangeState(newState)`: nothing happens when the state is unchanged; otherwise the new state's entry actions run and listeners hear (previous, new). */
    method ChangeState(newState: GameState)
      requires Valid()
      modifies this
      ensures Valid()
      ensures currentState == newState && subscribed == old(subscribed)
      ensures old(currentState) == newState ==> unchanged(this)
      ensures old(currentState) != newState ==>
        && timeScale == TimeScaleOnEnter(newState, old(timeScale))
        && notices == old(notices) + EnterNotices(newState) + [OnStateChanged(old(currentState), newState)]
    {
      if currentState == newState {
        return;
      }
      var previousState := currentState;
      currentState := newState;
      // Leaving a state has no effect (`OnStateExit` only holds comments).
      timeScale := TimeScaleOnEnter(newState, timeScale);
      notices := notices + EnterNotices(newState);
      notices := notices + [OnStateChanged(previousState, newState)];
    }

    /** `HandlePlayerDeath`: the player's death ends the game. */
    method HandlePlayerDeath()
      requires Valid()
      modifies this
      ensures Valid() && currentState == GameOver && timeScale == 1.0
      ensures subscribed == old(subscribed)
      ensures old(currentState) == GameOver ==> unchanged(this)
      ensures old(currentState) != GameOver ==>
        notices == old(notices) + [OnGameEnded, Raised(GameEvents.GameOver), OnStateChanged(old(currentState), GameOver)]
    {
      ChangeState(GameOver);
    }

    /** `HandleGamePaused`: a pause signal pauses only a running game. */
    method HandleGamePaused()
      requires Valid()
      modifies this
      ensures Valid()
      ensures old(currentState) == Playing ==>
        currentState == Paused && timeScale == 0.0 && notices == old(notices) + [OnStateChanged(Playing, Paused)]
      ensures old(currentState) != Playing ==> unchanged(this)
    {
      if currentState == Playing {
        ChangeState(Paused);
      }
    }

    /** `HandleGameResumed`: a resume signal resumes only a paused game. */
    method HandleGameResumed()
      requires Valid()
      modifies this
      ensures Valid()
      ensures old(currentState) == Paused ==>
        currentState == Playing && timeScale == 1.0
        && notices == old(notices) + [OnGameStarted, OnStateChanged(Paused, Playing)]
      ensures old(currentState) != Paused ==> unchanged(this)
    {
      if currentState == Paused {
        ChangeState(Playing);
      }
    }

    /**
     * `PauseGame`: from `Playing`, pauses and raises `GamePaused` on the hub.
     * The manager hears its own signal; by then it is paused, so the
     * handler changes nothing.
     */
    method PauseGame()
      requires Valid()
      modifies this
      ensures Valid()
      ensures old(currentState) == Playing ==>
        && currentState == Paused && timeScale == 0.0
        && notices == old(notices) + [OnStateChanged(Playing, Paused), Raised(GameEvents.GamePaused)]
      ensures old(currentState) != Playing ==> unchanged(this)
    {
      if currentState == Playing {
        ChangeState(Paused);
        notices := notices + [Raised(GameEvents.GamePaused)];
        if subscribed {
          HandleGamePaused();
        }
      }
    }

    /** `ResumeGame`: from `Paused`, resumes and raises `GameResumed`; the self-delivered signal is again a no-op. */
    method ResumeGame()
      requires Valid()
      modifies this
      ensures Valid()
      ensures old(currentState) == Paused ==>
        && currentState == Playing && timeScale == 1.0
        && notices == old(notices) + [OnGameStarted, OnStateChanged(Paused, Playing), Raised(GameEvents.GameResumed)]
      ensures old(currentState) != Paused ==> unchanged(this)
    {
      if currentState == Paused {
        ChangeState(Playing);
        notices := notices + [Raised(GameEvents.GameResumed)];
        if subscribed {
          HandleGameResumed();
        }
      }
    }

    /** `StartGame`. */
    method StartGame()
      requires Valid()
      modifies this
      ensures Valid() && currentState == Playing && timeScale == 1.0 && subscribed == old(subscribed)
      ensures old(currentState) == Playing ==> unchanged(this)
      ensures old(currentState) != Playing ==>
        notices == old(notices) + [OnGameStarted, OnStateChanged(old(currentState), Playing)]
    {
      ChangeState(Playing);
    }

    /** `EndGame`. */
    method EndGame()
      requires Valid()
      modifies this
      ensures Valid() && currentState == GameOver && timeScale == 1.0 && subscribed == old(subscribed)
      ensures old(currentState) == GameOver ==> unchanged(this)
      ensures old(currentState) != GameOver ==>
        notices == old(notices) + [OnGameEnded, Raised(GameEvents.GameOver), OnStateChanged(old(currentState), GameOver)]
    {
      ChangeState(GameOver);
    }

    /** `RestartGame`: passes through `Loading` and ends in `Playing`, so the game always restarts, even from `Loading` itself. */
    method RestartGame()
      requires Valid()
      modifies this
      ensures Valid() && currentState == Playing && timeScale == 1.0 && subscribed == old(subscribed)
      ensures old(currentState) != Loading ==>
        notices == old(notices) + [OnStateChanged(old(currentState), Loading), OnGameStarted, OnStateChanged(Loading, Playing)]
      ensures old(currentState) == Loading ==>
        notices == old(notices) + [OnGameStarted, OnStateChanged(Loading, Playing)]
    {
      ChangeState(Loading);
      ChangeState(Playing);
    }
  }

  /** `GetCurrentState()`: the instance's state, `Menu` when there is none. */
  function GetCurrentState(instance: GameStateManager?): (r: GameState)
    reads instance
    ensures instance == null ==> r == Menu
    ensures instance != null ==> r == instance.currentState
  {
    if instance == null then Menu else instance.currentState
  }

  /** `IsCurrentlyPlaying()`: false when there is no instance. */
  function IsCurrentlyPlaying(instance: GameStateManager?): (r: bool)
    reads instance
    ensures r <==> instance != null && instance.currentState == Playing
    ensures r ==> GetCurrentState(instance) == Playing
  {
    instance != null && instance.IsPlaying()
  }

  /** `IsCurrentlyPaused()`: false when there is no instance. */
  function IsCurrentlyPaused(instance: GameStateManager?): (r: bool)
    reads instance
    ensures r <==> instance != null && instance.currentState == Paused
    ensures r ==> GetCurrentState(instance) == Paused
  {
    instance != null && instance.IsPaused()
  }

  /** `Pause()`: forwards to the instance when there is one. */
  method Pause(instance: GameStateManager?)
    requires instance != null ==> instance.Valid()
    modifies instance
    ensures instance != null ==> instance.Valid()
    ensures instance != null && old(instance.currentState) == Playing ==>
      && instance.currentState == Paused && instance.timeScale == 0.0
      && instance.notices == old(instance.notices) + [OnStateChanged(Playing, Paused), Raised(GameEvents.GamePaused)]
    ensures instance != null && old(instance.currentState) != Playing ==> unchanged(instance)
  {
    if instance != null {
      instance.PauseGame();
    }
  }

  /** `Resume()`: forwards to the instance when there is one. */
  method Resume(instance: GameStateManager?)
    requires instance != null ==> instance.Valid()
    modifies instance
    ensures instance != null ==> instance.Valid()
    ensures instance != null && old(instance.currentState) == Paused ==>
      && instance.currentState == Playing && instance.timeScale == 1.0
      && instance.notices == old(instance.notices) + [OnGameStarted, OnStateChanged(Paused, Playing), Raised(GameEvents.GameResumed)]
    ensures instance != null && old(instance.currentState) != Paused ==> unchanged(instance)
  {
    if instance != null {
      instance.ResumeGame();
    }
  }
}

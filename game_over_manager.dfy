/**
 * `GameOverManager`: a latch that ends the game once per round, whether the
 * player's death, the global game-over signal or the legacy health poll
 * comes first.
 */
module GameOverManager {
  import opened Common
  import GSM = GameStateManager

  class GameOverManager {
    /** The scene's state manager singleton, when one exists. */
    const stateManager: GSM.GameStateManager?
    /** Whether an `Animator` component was found. */
    const hasAnimator: bool
    var gameOverTriggered: bool
    /** True after `Start` has subscribed the handlers to the global hub. */
    var subscribed: bool
    /** How many times the game-over sequence has run since the last reset. */
    ghost var runs: nat
    /** Triggers set on the animator, in order. */
    ghost var animatorTriggers: seq<string>

    /** The sequence has run exactly once in a latched round and not at all otherwise. */
    ghost predicate Valid()
      reads this, stateManager
    {
      && runs == (if gameOverTriggered then 1 else 0)
      && (stateManager != null ==> stateManager.Valid())
    }

    /**
     * What a first trigger of a round does, from the earlier state to this
     * one: the animator gets its "GameOver" trigger (when there is an
     * animator) and the state manager, if any, is asked for `GameOver`, with
     * exactly the effect of `ChangeState(GameOver)`.
     */
    twostate predicate FirstTrigger()
      reads this, stateManager
    {
      && animatorTriggers == old(animatorTriggers) + (if hasAnimator then ["GameOver"] else [])
      && subscribed == old(subscribed)
      && (stateManager != null ==>
            && stateManager.currentState == GSM.GameOver
            && stateManager.subscribed == old(stateManager.subscribed)
            && (old(stateManager.currentState) == GSM.GameOver ==>
                  stateManager.timeScale == old(stateManager.timeScale) && stateManager.notices == old(stateManager.notices))
            && (old(stateManager.currentState) != GSM.GameOver ==>
                  && stateManager.timeScale == 1.0
                  && stateManager.notices == old(stateManager.notices) + GSM.EnterNotices(GSM.GameOver)
                                             + [GSM.OnStateChanged(old(stateManager.currentState), GSM.GameOver)]))
    }

    constructor (stateManager: GSM.GameStateManager?, hasAnimator: bool)
      requires stateManager != null ==> stateManager.Valid()
      ensures this.stateManager == stateManager && this.hasAnimator == hasAnimator
      ensures !gameOverTriggered && !subscribed && runs == 0 && animatorTriggers == []
      ensures Valid()
    {
      this.stateManager := stateManager;
      this.hasAnimator := hasAnimator;
      gameOverTriggered := false;
      subscribed := false;
      runs := 0;
      animatorTriggers := [];
    }

    /** `Start`: subscribes `HandlePlayerDeath` and `HandleGameOver` to the hub. */
    method Start()
      requires Valid()
      modifies this
      ensures Valid() && subscribed
      ensures gameOverTriggered == old(gameOverTriggered) && runs == old(runs)
      ensures animatorTriggers == old(animatorTriggers)
    {
      subscribed := true;
    }

    /**
     * `TriggerGameOver`: the first call of a round latches, asks the state
     * manager for `GameOver` and fires the animator's "GameOver" trigger;
     * later calls return at once. Entering `GameOver` raises the global
     * game-over signal, which this manager hears re-entrantly; the latch is
     * already set, so that nested call returns immediately.
     */
    method TriggerGameOver()
      requires Valid()
      modifies this, stateManager
      decreases if gameOverTriggered then 0 else 1
      ensures Valid() && gameOverTriggered && runs == 1
      ensures old(gameOverTriggered) ==> unchanged(this) && (stateManager != null ==> unchanged(stateManager))
      ensures !old(gameOverTriggered) ==> FirstTrigger()
    {
      if gameOverTriggered {
        return;
      }
      gameOverTriggered := true;
      runs := runs + 1;
      if stateManager != null {
        var wasOver := stateManager.currentState == GSM.GameOver;
        stateManager.ChangeState(GSM.GameOver);
        if !wasOver && subscribed {
          // The global game-over signal reaches `HandleGameOver`.
          TriggerGameOver();
        }
      }
      if hasAnimator {
        animatorTriggers := animatorTriggers + ["GameOver"];
      }
    }

    /** `HandlePlayerDeath`, subscribed to the player's death signal. */
    method HandlePlayerDeath()
      requires Valid()
      modifies this, stateManager
      ensures Valid() && gameOverTriggered && runs == 1
      ensures old(gameOverTriggered) ==> unchanged(this) && (stateManager != null ==> unchanged(stateManager))
      ensures !old(gameOverTriggered) ==> FirstTrigger()
    {
      TriggerGameOver();
    }

    /** `HandleGameOver`, subscribed to the global game-over signal. */
    method HandleGameOver()
      requires Valid()
      modifies this, stateManager
      ensures Valid() && gameOverTriggered && runs == 1
      ensures old(gameOverTriggered) ==> unchanged(this) && (stateManager != null ==> unchanged(stateManager))
      ensures !old(gameOverTriggered) ==> FirstTrigger()
    {
      TriggerGameOver();
    }

    /** `Update`, the legacy poll: `playerHealth` is the player's current health, `None` when no player was found. */
    method Update(playerHealth: Option<int>)
      requires Valid()
      modifies this, stateManager
      ensures Valid()
      ensures gameOverTriggered <==> old(gameOverTriggered) || (playerHealth.Some? && playerHealth.value <= 0)
      ensures !gameOverTriggered ==> unchanged(this) && (stateManager != null ==> unchanged(stateManager))
      ensures old(gameOverTriggered) ==> unchanged(this) && (stateManager != null ==> unchanged(stateManager))
      ensures gameOverTriggered && !old(gameOverTriggered) ==> FirstTrigger()
    {
      if !gameOverTriggered && playerHealth.Some? && playerHealth.value <= 0 {
        TriggerGameOver();
      }
    }

    /** `ResetGameOver`: opens a new round; the state manager is left as it is. */
    method ResetGameOver()
      requires Valid()
      modifies this
      ensures Valid() && !gameOverTriggered && runs == 0
      ensures subscribed == old(subscribed) && animatorTriggers == old(animatorTriggers)
    {
      gameOverTriggered := false;
      runs := 0;
    }
  }
}

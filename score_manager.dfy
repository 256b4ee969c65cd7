/**
 * `ScoreManager`: the persistent score singleton. It accumulates kill
 * points, tracks the high score, snapshots the finished run and backs that
 * snapshot up in `PlayerPrefs` so that the results screen can recover it
 * even when the instance does not survive the scene change.
 */
module ScoreManager {
  import opened Common
  import opened GameEvents
  import opened Prefs
  import Text

  /** The `RunStats` struct; `default(RunStats)` is all zeros. */
  datatype RunStats = RunStats(score: int, highScore: int, monsterKills: int)

  const DefaultRunStats: RunStats := RunStats(0, 0, 0)

  const HighScoreKey: string := "HighScore"
  const LastRunScoreKey: string := "LastRunScore"
  const LastRunHighScoreKey: string := "LastRunHighScore"
  const LastRunKillsKey: string := "LastRunKills"
  const HasFinalizedRunKey: string := "HasFinalizedRun"
  /** The scene in which a newly created manager keeps the data it finds. */
  const ResultsScene: string := "Menu 1"

  /** The four entries of the run backup. */
  const BackupKeys: set<string> := {LastRunScoreKey, LastRunHighScoreKey, LastRunKillsKey, HasFinalizedRunKey}

  /** The snapshot `CaptureRunStats` takes: the run's high score is never below its score. */
  function Snapshot(score: int, highScore: int, monsterKills: int): (r: RunStats)
    ensures r.score == score && r.monsterKills == monsterKills
    ensures r.highScore >= score && r.highScore >= highScore
    ensures r.highScore == score || r.highScore == highScore
  {
    RunStats(score, Max(highScore, score), monsterKills)
  }

  /** The store holds a complete backup of `stats`, marked as finalized. */
  predicate BackupHolds(store: map<string, int>, stats: RunStats)
  {
    && LastRunScoreKey in store && store[LastRunScoreKey] == stats.score
    && LastRunHighScoreKey in store && store[LastRunHighScoreKey] == stats.highScore
    && LastRunKillsKey in store && store[LastRunKillsKey] == stats.monsterKills
    && HasFinalizedRunKey in store && store[HasFinalizedRunKey] == 1
  }

  /** The store after the four `SetInt` calls of `CaptureRunStats`. */
  function WithBackup(store: map<string, int>, stats: RunStats): (r: map<string, int>)
    ensures BackupHolds(r, stats)
    ensures r.Keys == store.Keys + BackupKeys
    ensures forall k :: k in store && k !in BackupKeys ==> r[k] == store[k]
  {
    store[LastRunScoreKey := stats.score][LastRunHighScoreKey := stats.highScore]
         [LastRunKillsKey := stats.monsterKills][HasFinalizedRunKey := 1]
  }

  /** The store after the four `DeleteKey` calls of `ResetScore`. */
  function WithoutBackup(store: map<string, int>): (r: map<string, int>)
    ensures r.Keys == store.Keys - BackupKeys
    ensures forall k :: k in r ==> r[k] == store[k]
  {
    store - BackupKeys
  }

  /** Deleting the four backup keys one by one leaves the store without the backup. */
  lemma DeletingBackup(store: map<string, int>)
    ensures store - {LastRunScoreKey} - {LastRunHighScoreKey} - {LastRunKillsKey} - {HasFinalizedRunKey} == WithoutBackup(store)
  {
  }

  /** What the static accessors can see of a live instance. */
  datatype ScoreView = ScoreView(
    currentScore: int, highScore: int, monsterKills: int, isHighScore: bool,
    runFinalized: bool, lastRun: RunStats)

  /**
   * `GetLastRunStats()`: the instance's finalized snapshot; else the
   * backup in the store when one was written; else the instance's live
   * values; else all zeros.
   */
  function GetLastRunStats(instance: Option<ScoreView>, store: map<string, int>): (r: RunStats)
    ensures instance.Some? && instance.value.runFinalized ==> r == instance.value.lastRun
    ensures instance.None? && LastRunScoreKey !in store ==> r == DefaultRunStats
  {
    if instance.Some? && instance.value.runFinalized then instance.value.lastRun
    else if LastRunScoreKey in store then
      RunStats(store[LastRunScoreKey], GetInt(store, LastRunHighScoreKey, 0), GetInt(store, LastRunKillsKey, 0))
    else if instance.Some? then
      RunStats(instance.value.currentScore, instance.value.highScore, instance.value.monsterKills)
    else DefaultRunStats
  }

  /** `HasFinalizedRun()`: the instance finalized its run, or the store's flag is exactly 1. */
  function HasFinalizedRun(instance: Option<ScoreView>, store: map<string, int>): (r: bool)
    ensures r <==> (instance.Some? && instance.value.runFinalized) || GetInt(store, HasFinalizedRunKey, 0) == 1
  {
    (instance.Some? && instance.value.runFinalized) || GetInt(store, HasFinalizedRunKey, 0) == 1
  }

  /** `GetScore()`: 0 without an instance. */
  function GetScore(instance: Option<ScoreView>): (r: int)
    ensures instance.None? ==> r == 0
    ensures instance.Some? ==> r == instance.value.currentScore
  {
    if instance.Some? then instance.value.currentScore else 0
  }

  /** `GetHighScore()`: 0 without an instance. */
  function GetHighScore(instance: Option<ScoreView>): (r: int)
    ensures instance.None? ==> r == 0
    ensures instance.Some? ==> r == instance.value.highScore
  {
    if instance.Some? then instance.value.highScore else 0
  }

  /** `GetMonsterKills()`: 0 without an instance. */
  function GetMonsterKills(instance: Option<ScoreView>): (r: int)
    ensures instance.None? ==> r == 0
    ensures instance.Some? ==> r == instance.value.monsterKills
  {
    if instance.Some? then instance.value.monsterKills else 0
  }

  /** `GetIsHighScore()`: false without an instance. */
  function GetIsHighScore(instance: Option<ScoreView>): (r: bool)
    ensures r <==> instance.Some? && instance.value.isHighScore
  {
    instance.Some? && instance.value.isHighScore
  }

  /**
   * While no run has been captured (no finalized instance and no backup),
   * `GetLastRunStats` reports exactly what the three static forwarders
   * report, with or without an instance.
   */
  lemma {:induction false} FallbackIsForwarders(instance: Option<ScoreView>, store: map<string, int>)
    requires !(instance.Some? && instance.value.runFinalized) && LastRunScoreKey !in store
    ensures GetLastRunStats(instance, store) == RunStats(GetScore(instance), GetHighScore(instance), GetMonsterKills(instance))
  {
  }

  /**
   * The backup alone recovers the snapshot: once it is written, a results
   * screen with no instance, or with a fresh one that has not finalized a
   * run, reads back exactly the captured stats and sees a finalized run.
   */
  lemma {:induction false} BackupRecoversSnapshot(instance: Option<ScoreView>, store: map<string, int>, stats: RunStats)
    requires BackupHolds(store, stats)
    requires instance.None? || !instance.value.runFinalized
    ensures GetLastRunStats(instance, store) == stats
    ensures HasFinalizedRun(instance, store)
  {
  }

  /** Whether or not the instance survives, a finalized run reads the same. */
  lemma {:induction false} InstanceAgreesWithBackup(view: ScoreView, store: map<string, int>)
    requires view.runFinalized && BackupHolds(store, view.lastRun)
    ensures GetLastRunStats(Some(view), store) == GetLastRunStats(None, store) == view.lastRun
    ensures HasFinalizedRun(Some(view), store) && HasFinalizedRun(None, store)
  {
  }

  /**
   * After the backup is cleared, a store with no flag and no instance that
   * has finalized a run reports no finalized run, and the stats fall back
   * to the instance's live values, or to zeros without one.
   */
  lemma {:induction false} ClearedBackupReportsNoRun(instance: Option<ScoreView>, store: map<string, int>)
    requires instance.None? || !instance.value.runFinalized
    ensures !HasFinalizedRun(instance, WithoutBackup(store))
    ensures GetLastRunStats(instance, WithoutBackup(store)) ==
      (if instance.Some? then RunStats(instance.value.currentScore, instance.value.highScore, instance.value.monsterKills)
       else DefaultRunStats)
  {
  }

  /** A captured run, read back through either path, never has a high score below its score. */
  lemma {:induction false} CapturedRunHighScoreBound(instance: Option<ScoreView>, store: map<string, int>, score: int, highScore: int, kills: int)
    requires instance.None? || !instance.value.runFinalized
    ensures var r := GetLastRunStats(instance, WithBackup(store, Snapshot(score, highScore, kills)));
      r.score == score && r.highScore >= score && r.highScore >= highScore && r.monsterKills == kills
  {
    BackupRecoversSnapshot(instance, WithBackup(store, Snapshot(score, highScore, kills)), Snapshot(score, highScore, kills));
  }

  /** `OnSceneLoaded` resets the run for scenes whose name contains "Level" or "Game". */
  predicate IsGameScene(sceneName: string)
  {
    Text.Contains(sceneName, "Level") || Text.Contains(sceneName, "Game")
  }

  class ScoreManager {
    const prefs: PlayerPrefs
    var currentScore: int
    var highScore: int
    var monsterKills: int
    var isHighScore: bool
    var cheatModeActive: bool
    var lastRun: RunStats
    var runFinalized: bool
    /** The `GameEvents` signals this manager raised, in order. */
    ghost var raised: seq<Event>

    /** The snapshot's high score is never below its score, and a finalized run is always backed up in the store. */
    ghost predicate Valid()
      reads this, prefs
    {
      && lastRun.highScore >= lastRun.score
      && (runFinalized ==> BackupHolds(prefs.store, lastRun))
    }

    function View(): ScoreView
      reads this
    {
      ScoreView(currentScore, highScore, monsterKills, isHighScore, runFinalized, lastRun)
    }

    /** The field initialisers: everything zero or false. */
    constructor (prefs: PlayerPrefs)
      ensures this.prefs == prefs
      ensures currentScore == 0 && highScore == 0 && monsterKills == 0
      ensures !isHighScore && !cheatModeActive && !runFinalized && lastRun == DefaultRunStats
      ensures raised == []
      ensures Valid()
    {
      this.prefs := prefs;
      currentScore := 0;
      highScore := 0;
      monsterKills := 0;
      isHighScore := false;
      cheatModeActive := false;
      lastRun := DefaultRunStats;
      runFinalized := false;
      raised := [];
    }

    /**
     * `Awake`: zero score, high score loaded from the store, cheat mode on
     * iff an indicator object was found; outside the results scene the run
     * is reset.
     */
    method Awake(sceneName: string, cheatIndicatorFound: bool)
      requires Valid()
      modifies this, prefs
      ensures Valid()
      ensures cheatModeActive == cheatIndicatorFound
      ensures lastRun == old(lastRun)
      ensures sceneName == ResultsScene ==>
        && currentScore == 0 && highScore == GetInt(old(prefs.store), HighScoreKey, 0)
        && monsterKills == old(monsterKills) && runFinalized == old(runFinalized) && isHighScore == old(isHighScore)
        && prefs.store == old(prefs.store) && raised == old(raised)
      ensures sceneName != ResultsScene ==>
        var loaded := GetInt(old(prefs.store), HighScoreKey, 0);
        && currentScore == 0 && monsterKills == 0 && !runFinalized
        && isHighScore == (0 >= loaded && cheatIndicatorFound)
        && highScore == (if cheatIndicatorFound && loaded < 0 then 0 else loaded)
        && prefs.store == WithoutBackup(old(prefs.store))
        && raised == old(raised) + (if highScore != loaded then [HighScoreChanged(0)] else []) + [ScoreChanged(0), GameStarted]
    {
      currentScore := 0;
      highScore := GetInt(prefs.store, HighScoreKey, 0);
      cheatModeActive := cheatIndicatorFound;
      if sceneName != ResultsScene {
        ResetScore();
      }
    }

    /**
     * `UpdateHighScoreStatus`: the status is "at or above the high score,
     * with cheat mode on"; a strictly higher score under that status becomes
     * the new high score and is announced.
     */
    method UpdateHighScoreStatus()
      modifies this
      ensures isHighScore == (currentScore >= old(highScore) && cheatModeActive)
      ensures highScore == (if isHighScore && currentScore > old(highScore) then currentScore else old(highScore))
      ensures raised == old(raised) + (if highScore != old(highScore) then [HighScoreChanged(highScore)] else [])
      ensures isHighScore ==> highScore == currentScore
      ensures highScore >= old(highScore)
      ensures currentScore == old(currentScore) && monsterKills == old(monsterKills)
      ensures cheatModeActive == old(cheatModeActive) && lastRun == old(lastRun) && runFinalized == old(runFinalized)
    {
      isHighScore := currentScore >= highScore && cheatModeActive;
      if isHighScore && currentScore > highScore {
        highScore := currentScore;
        raised := raised + [HighScoreChanged(highScore)];
      }
    }

    /** `AddScore(points)`: C# `int` addition, then the high-score update, then `ScoreChanged`. */
    method AddScore(points: int)
      requires Valid()
      modifies this
      ensures Valid()
      ensures currentScore == Wrap32(old(currentScore) + points)
      ensures isHighScore == (currentScore >= old(highScore) && cheatModeActive)
      ensures isHighScore ==> highScore == currentScore
      ensures highScore == (if isHighScore && currentScore > old(highScore) then currentScore else old(highScore))
      ensures raised == old(raised) + (if highScore != old(highScore) then [HighScoreChanged(highScore)] else [])
                                    + [ScoreChanged(currentScore)]
      ensures monsterKills == old(monsterKills) && cheatModeActive == old(cheatModeActive)
      ensures lastRun == old(lastRun) && runFinalized == old(runFinalized)
    {
      currentScore := Wrap32(currentScore + points);
      UpdateHighScoreStatus();
      raised := raised + [ScoreChanged(currentScore)];
    }

    /** `HandleEnemyKilled(scoreValue, position)`: the kill's points are added, then the kill is counted. */
    method HandleEnemyKilled(scoreValue: int)
      requires Valid()
      modifies this
      ensures Valid()
      ensures currentScore == Wrap32(old(currentScore) + scoreValue)
      ensures monsterKills == Wrap32(old(monsterKills) + 1)
      ensures isHighScore == (currentScore >= old(highScore) && cheatModeActive)
      ensures highScore == (if isHighScore && currentScore > old(highScore) then currentScore else old(highScore))
      ensures highScore >= old(highScore) && (isHighScore ==> highScore == currentScore)
      ensures raised == old(raised) + (if highScore != old(highScore) then [HighScoreChanged(highScore)] else [])
                                    + [ScoreChanged(currentScore)]
      ensures lastRun == old(lastRun) && runFinalized == old(runFinalized) && cheatModeActive == old(cheatModeActive)
    {
      AddScore(scoreValue);
      monsterKills := Wrap32(monsterKills + 1);
    }

    /**
     * `ResetScore`: a new run. Score and kills are zeroed, the run is no
     * longer finalized, the backup entries are deleted from the store, and
     * `ScoreChanged(0)` then `GameStarted` are raised.
     */
    method ResetScore()
      requires Valid()
      modifies this, prefs
      ensures Valid()
      ensures currentScore == 0 && monsterKills == 0 && !runFinalized
      ensures isHighScore == (0 >= old(highScore) && cheatModeActive)
      ensures highScore == (if cheatModeActive && old(highScore) < 0 then 0 else old(highScore))
      ensures prefs.store == WithoutBackup(old(prefs.store))
      ensures raised == old(raised) + (if highScore != old(highScore) then [HighScoreChanged(0)] else [])
                                    + [ScoreChanged(0), GameStarted]
      ensures cheatModeActive == old(cheatModeActive) && lastRun == old(lastRun)
    {
      currentScore := 0;
      monsterKills := 0;
      runFinalized := false;
      UpdateHighScoreStatus();
      DeletingBackup(prefs.store);
      prefs.DeleteKey(LastRunScoreKey);
      prefs.DeleteKey(LastRunHighScoreKey);
      prefs.DeleteKey(LastRunKillsKey);
      prefs.DeleteKey(HasFinalizedRunKey);
      raised := raised + [ScoreChanged(currentScore)];
      raised := raised + [GameStarted];
    }

    /**
     * `OnSceneLoaded(scene, mode)`: a game scene starts a fresh run without
     * touching the store or the high-score status; every scene re-detects
     * cheat mode.
     */
    method OnSceneLoaded(sceneName: string, cheatIndicatorFound: bool)
      requires Valid()
      modifies this
      ensures Valid()
      ensures cheatModeActive == cheatIndicatorFound
      ensures IsGameScene(sceneName) ==> currentScore == 0 && monsterKills == 0 && !runFinalized
      ensures !IsGameScene(sceneName) ==>
        currentScore == old(currentScore) && monsterKills == old(monsterKills) && runFinalized == old(runFinalized)
      ensures highScore == old(highScore) && isHighScore == old(isHighScore)
      ensures lastRun == old(lastRun) && raised == old(raised)
    {
      if IsGameScene(sceneName) {
        currentScore := 0;
        monsterKills := 0;
        runFinalized := false;
      }
      cheatModeActive := cheatIndicatorFound;
    }

    /** `SaveHighScore`: the stored high score only ever rises, to the current score. */
    method SaveHighScore()
      requires Valid()
      modifies prefs
      ensures Valid()
      ensures GetInt(prefs.store, HighScoreKey, 0) == Max(GetInt(old(prefs.store), HighScoreKey, 0), currentScore)
      ensures currentScore > GetInt(old(prefs.store), HighScoreKey, 0) ==>
        prefs.store == old(prefs.store)[HighScoreKey := currentScore]
      ensures currentScore <= GetInt(old(prefs.store), HighScoreKey, 0) ==> prefs.store == old(prefs.store)
    {
      if currentScore > GetInt(prefs.store, HighScoreKey, 0) {
        prefs.SetInt(HighScoreKey, currentScore);
      }
    }

    /** `CaptureRunStats`: snapshots the run, marks it finalized and writes the backup. */
    method CaptureRunStats()
      requires Valid()
      modifies this, prefs
      ensures Valid()
      ensures lastRun == Snapshot(currentScore, highScore, monsterKills) && runFinalized
      ensures prefs.store == WithBackup(old(prefs.store), lastRun)
      ensures currentScore == old(currentScore) && highScore == old(highScore) && monsterKills == old(monsterKills)
      ensures isHighScore == old(isHighScore) && cheatModeActive == old(cheatModeActive) && raised == old(raised)
    {
      lastRun := Snapshot(currentScore, highScore, monsterKills);
      runFinalized := true;
      prefs.SetInt(LastRunScoreKey, lastRun.score);
      prefs.SetInt(LastRunHighScoreKey, lastRun.highScore);
      prefs.SetInt(LastRunKillsKey, lastRun.monsterKills);
      prefs.SetInt(HasFinalizedRunKey, 1);
    }

    /**
     * The global game-over signal, delivered to `SaveHighScore` and then to
     * `CaptureRunStats` in subscription order: afterwards the stored high
     * score covers the final score, and both recovery paths report the run.
     */
    method HandleGameOver()
      requires Valid()
      modifies this, prefs
      ensures Valid()
      ensures runFinalized && lastRun == Snapshot(currentScore, highScore, monsterKills)
      ensures prefs.store == WithBackup(if currentScore > GetInt(old(prefs.store), HighScoreKey, 0)
                                        then old(prefs.store)[HighScoreKey := currentScore]
                                        else old(prefs.store), lastRun)
      ensures GetInt(prefs.store, HighScoreKey, 0) == Max(GetInt(old(prefs.store), HighScoreKey, 0), currentScore)
      ensures GetLastRunStats(Some(View()), prefs.store) == lastRun
      ensures GetLastRunStats(None, prefs.store) == lastRun
      ensures HasFinalizedRun(None, prefs.store)
      ensures currentScore == old(currentScore) && highScore == old(highScore) && monsterKills == old(monsterKills)
      ensures isHighScore == old(isHighScore) && cheatModeActive == old(cheatModeActive) && raised == old(raised)
    {
      SaveHighScore();
      CaptureRunStats();
      InstanceAgreesWithBackup(View(), prefs.store);
    }
  }
}

/**
 * The results screen (`ResultStandalone`): shows the last run's score, high
 * score and kills, taken from the score manager, its backup in the
 * preferences store, or the raw stored values, and posts the high score to
 * the score server once when the run set or tied it.
 */
module ResultStandalone {
  import opened Common
  import opened Prefs
  import opened ScoreManager
  import Decimal
  import Leaderboard

  /** Where the displayed values came from. */
  datatype Source = FromScoreManager | FromBackup | FromCurrentPrefs

  /** The path `postRequest` is sent to. */
  const AddScoreUrl: string := Leaderboard.ScoreStorageUrl + "addScore"

  /**
   * `TryGetFromScoreManager`: a finalized run (live or backed up) wins;
   * otherwise the live values, but only when the score or the high score
   * is positive.
   */
  function TryGetFromScoreManager(instance: Option<ScoreView>, store: map<string, int>): (r: Option<RunStats>)
    ensures HasFinalizedRun(instance, store) ==> r == Some(GetLastRunStats(instance, store))
    ensures !HasFinalizedRun(instance, store) ==>
      (r.Some? <==> instance.Some? && (instance.value.currentScore > 0 || instance.value.highScore > 0))
    ensures !HasFinalizedRun(instance, store) && r.Some? ==>
      r.value == RunStats(instance.value.currentScore, instance.value.highScore, instance.value.monsterKills)
  {
    if HasFinalizedRun(instance, store) then Some(GetLastRunStats(instance, store))
    else
      var score := GetScore(instance);
      var highScore := GetHighScore(instance);
      var kills := GetMonsterKills(instance);
      if score > 0 || highScore > 0 then Some(RunStats(score, highScore, kills)) else None
  }

  /** `TryGetFromPlayerPrefs`: the backup, when its flag is exactly 1 and it holds a positive score or high score. */
  function TryGetFromPlayerPrefs(store: map<string, int>): (r: Option<RunStats>)
    ensures r.Some? ==> GetInt(store, HasFinalizedRunKey, 0) == 1
    ensures r.Some? ==> r.value.score > 0 || r.value.highScore > 0
    ensures forall stats :: BackupHolds(store, stats) && (stats.score > 0 || stats.highScore > 0) ==> r == Some(stats)
  {
    if GetInt(store, HasFinalizedRunKey, 0) == 1 then
      var data := RunStats(GetInt(store, LastRunScoreKey, 0), GetInt(store, LastRunHighScoreKey, 0), GetInt(store, LastRunKillsKey, 0));
      if data.score > 0 || data.highScore > 0 then Some(data) else None
    else None
  }

  /** The first of the three sources that yields data, and that data; the last one shows zero kills. */
  function SelectResults(instance: Option<ScoreView>, store: map<string, int>): (r: (Source, RunStats))
    ensures r.0 == FromScoreManager <==> TryGetFromScoreManager(instance, store).Some?
    ensures r.0 == FromCurrentPrefs ==> r.1 == RunStats(GetInt(store, "Score", 0), GetInt(store, HighScoreKey, 0), 0)
  {
    match TryGetFromScoreManager(instance, store)
    case Some(data) => (FromScoreManager, data)
    case None =>
      match TryGetFromPlayerPrefs(store)
      case Some(data) => (FromBackup, data)
      case None => (FromCurrentPrefs, RunStats(GetInt(store, "Score", 0), GetInt(store, HighScoreKey, 0), 0))
  }

  /** The run earns a post: its score is positive and reaches its high score. */
  predicate WantsPost(data: RunStats)
  {
    data.score >= data.highScore && data.score > 0
  }

  /** The post-decision of `DisplayResults`: only data from one of the first two sources is ever posted. */
  predicate PostsFor(source: Source, data: RunStats, hasPosted: bool)
  {
    source != FromCurrentPrefs && !hasPosted && WantsPost(data)
  }

  /**
   * The backup branch can never be taken: its flag test is one of the ways
   * `HasFinalizedRun` holds, and then the score manager path already
   * yields data.
   */
  lemma {:induction false} BackupBranchUnreachable(instance: Option<ScoreView>, store: map<string, int>)
    ensures SelectResults(instance, store).0 != FromBackup
  {
    if TryGetFromPlayerPrefs(store).Some? {
      assert HasFinalizedRun(instance, store);
    }
  }

  /**
   * After a game over captured `stats`, the results scene, with no
   * instance or one that has not finalized a run, shows exactly `stats`,
   * and posts exactly when that run's score is positive and reached its
   * high score.
   */
  lemma {:induction false} ResultsShowCapturedRun(instance: Option<ScoreView>, store: map<string, int>, stats: RunStats)
    requires BackupHolds(store, stats)
    requires instance.None? || !instance.value.runFinalized
    ensures SelectResults(instance, store) == (FromScoreManager, stats)
    ensures PostsFor(FromScoreManager, stats, false) <==> stats.score > 0 && stats.score >= stats.highScore
  {
    BackupRecoversSnapshot(instance, store, stats);
  }

  /**
   * For a snapshot taken by `CaptureRunStats`, a post happens exactly when
   * the run's score is positive and at least the previous high score, and
   * the value posted is then the run's own score.
   */
  lemma {:induction false} PostedValueIsRunScore(score: int, highScore: int, kills: int)
    ensures WantsPost(Snapshot(score, highScore, kills)) <==> score > 0 && score >= highScore
    ensures WantsPost(Snapshot(score, highScore, kills)) ==> Snapshot(score, highScore, kills).highScore == score
  {
    var s := Snapshot(score, highScore, kills);
    assert s.highScore == Max(highScore, score);
  }

  /**
   * `PostScore` as written: `postRequest` swallows an HTTP failure and
   * returns null, so the flag is set unless another exception escapes.
   */
  function PostedAfterAsWritten(hasPosted: bool, outcome: Leaderboard.RequestOutcome): (r: bool)
    ensures r <==> hasPosted || !outcome.OtherFailure?
  {
    hasPosted || Leaderboard.PostRequest(outcome).Ok?
  }

  /** `PostScore` as intended: the flag is set only once a request has been delivered. */
  function PostedAfter(hasPosted: bool, outcome: Leaderboard.RequestOutcome): (r: bool)
    ensures r <==> hasPosted || outcome.Delivered?
  {
    hasPosted || (Leaderboard.PostRequest(outcome).Ok? && Leaderboard.PostRequest(outcome).value.Some?)
  }

  /** A refused connection marks the score as posted in the code as written, and must not. */
  lemma RefusedConnectionMarksPosted()
    ensures PostedAfterAsWritten(false, Leaderboard.HttpFailure("Connection refused"))
    ensures !PostedAfter(false, Leaderboard.HttpFailure("Connection refused"))
  {
  }

  class ResultStandalone {
    const scoreStorage: Leaderboard.RequestPacket
    var hasPosted: bool
    var scoreText: string
    var highScoreText: string
    var killsText: string
    /** The requests sent: target URL and body. */
    ghost var posts: seq<(string, string)>

    constructor ()
      ensures scoreStorage.url == Leaderboard.ScoreStorageUrl
      ensures !hasPosted && posts == []
      ensures scoreText == "" && highScoreText == "" && killsText == ""
    {
      scoreStorage := new Leaderboard.RequestPacket(Leaderboard.ScoreStorageUrl);
      hasPosted := false;
      scoreText, highScoreText, killsText := "", "", "";
      posts := [];
    }

    /** `DisplayData`: writes the three values into their text fields. */
    method DisplayData(scoreValue: int, highScoreValue: int, killsValue: int)
      modifies this
      ensures scoreText == Decimal.ToDecimal(scoreValue)
      ensures highScoreText == Decimal.ToDecimal(highScoreValue)
      ensures killsText == Decimal.ToDecimal(killsValue)
      ensures hasPosted == old(hasPosted) && posts == old(posts)
    {
      scoreText := Decimal.ToDecimal(scoreValue);
      highScoreText := Decimal.ToDecimal(highScoreValue);
      killsText := Decimal.ToDecimal(killsValue);
    }

    /**
     * `PostScore(highScore)`: sends the value once; the flag follows the
     * intended rule, see `PostedAfter`.
     */
    method PostScore(highScore: int, outcome: Leaderboard.RequestOutcome)
      requires scoreStorage.url == Leaderboard.ScoreStorageUrl
      modifies this
      ensures old(hasPosted) ==> hasPosted && posts == old(posts)
      ensures !old(hasPosted) ==> posts == old(posts) + [(AddScoreUrl, Decimal.ToDecimal(highScore))]
      ensures hasPosted == PostedAfter(old(hasPosted), outcome)
      ensures scoreText == old(scoreText) && highScoreText == old(highScoreText) && killsText == old(killsText)
    {
      if hasPosted {
        return;
      }
      posts := posts + [(scoreStorage.GetUrl() + "addScore", Decimal.ToDecimal(highScore))];
      var response := Leaderboard.PostRequest(outcome);
      if response.Ok? && response.value.Some? {
        hasPosted := true;
      }
    }

    /**
     * `DisplayResults` (run by `Start`): shows the selected data and posts
     * its high score when the run earns it; the raw stored values are
     * never posted.
     */
    method DisplayResults(instance: Option<ScoreView>, prefs: PlayerPrefs, outcome: Leaderboard.RequestOutcome)
      requires scoreStorage.url == Leaderboard.ScoreStorageUrl
      modifies this
      ensures var (source, data) := SelectResults(instance, prefs.store);
        && scoreText == Decimal.ToDecimal(data.score)
        && highScoreText == Decimal.ToDecimal(data.highScore)
        && killsText == Decimal.ToDecimal(data.monsterKills)
        && (PostsFor(source, data, old(hasPosted)) ==>
              posts == old(posts) + [(AddScoreUrl, Decimal.ToDecimal(data.highScore))] && hasPosted == PostedAfter(false, outcome))
        && (!PostsFor(source, data, old(hasPosted)) ==> posts == old(posts) && hasPosted == old(hasPosted))
    {
      var smData := TryGetFromScoreManager(instance, prefs.store);
      if smData.Some? {
        var data := smData.value;
        DisplayData(data.score, data.highScore, data.monsterKills);
        if !hasPosted && data.score >= data.highScore && data.score > 0 {
          PostScore(data.highScore, outcome);
        }
      } else {
        var ppData := TryGetFromPlayerPrefs(prefs.store);
        if ppData.Some? {
          // The backup path (display, then post like the first path) is
          // dead code: see `BackupBranchUnreachable`.
          assert false;
        } else {
          var fallbackScore := GetInt(prefs.store, "Score", 0);
          var fallbackHigh := GetInt(prefs.store, HighScoreKey, 0);
          DisplayData(fallbackScore, fallbackHigh, 0);
        }
      }
    }
  }
}

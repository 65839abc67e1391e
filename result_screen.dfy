/** The stage result screen: the played stage is marked cleared, its best
    score raised to the run's correct count, and the stage's coin reward
    added. The screen has no applied-once flag, so each render of the
    result applies it again. */
module StageResult {
  import opened Common
  import opened SaveModel
  import opened StageQuiz

  /** The object key `save.progress.stages[stageId]` uses. */
  function StageKey(stageId: Option<string>): string
  {
    GetOr(stageId, "undefined")
  }

  /** `st.bestScore == null ? score : Math.max(st.bestScore, score)` */
  function NewBest(best: Option<int>, score: int): (r: int)
    ensures best.None? ==> r == score
    ensures best.Some? ==> r >= best.value && r >= score && (r == best.value || r == score)
  {
    if best.None? then score else Max(best.value, score)
  }

  /** The progress entry of the played stage after the result. */
  function Progressed(stages: map<string, StageProgress>, key: string, score: int): (r: map<string, StageProgress>)
    ensures key in r && r[key].cleared && r[key].bestScore.Some?
    ensures key in stages && stages[key].bestScore.Some? ==> r[key].bestScore.value >= stages[key].bestScore.value
    ensures r[key].bestScore.value >= score
    ensures r.Keys == stages.Keys + {key}
    ensures forall k :: k in stages && k != key ==> r[k] == stages[k]
  {
    var best := if key in stages then stages[key].bestScore else None;
    stages[key := StageProgress(true, Some(NewBest(best, score)))]
  }

  /** Recording the same result twice leaves the progress as recording it
      once: only the coins grow again on a second render. */
  lemma ProgressedIdempotent(stages: map<string, StageProgress>, key: string, score: int)
    ensures Progressed(Progressed(stages, key, score), key, score) == Progressed(stages, key, score)
  {
    var once := Progressed(stages, key, score);
    assert NewBest(once[key].bestScore, score) == once[key].bestScore.value;
  }

  /** The progress after playing the stage with each score in turn. */
  function PlayAll(stages: map<string, StageProgress>, key: string, scores: seq<int>): map<string, StageProgress>
  {
    if scores == [] then stages
    else Progressed(PlayAll(stages, key, scores[..|scores| - 1]), key, scores[|scores| - 1])
  }

  /** The best score of a stage never decreases over a sequence of plays,
      and ends at least as high as every score played. */
  lemma {:induction false} PlayAllBest(stages: map<string, StageProgress>, key: string, scores: seq<int>)
    requires scores != []
    ensures var r := PlayAll(stages, key, scores);
            key in r && r[key].cleared && r[key].bestScore.Some? &&
            (forall i :: 0 <= i < |scores| ==> r[key].bestScore.value >= scores[i]) &&
            (key in stages && stages[key].bestScore.Some? ==> r[key].bestScore.value >= stages[key].bestScore.value)
  {
    var init := scores[..|scores| - 1];
    if init != [] {
      PlayAllBest(stages, key, init);
      forall i | 0 <= i < |init|
        ensures scores[i] == init[i]
      {
      }
    }
  }

  /** `renderResult`: with no run nothing changes; otherwise the played
      stage is cleared with its best score updated, the coins rise by the
      stage's `reward_coin` (0 when missing), and the save is stamped. The
      shown score is the correct count and the total the number of
      questions. */
  method RenderResult(run: StageRun?, save: Save, rewardCoin: Option<int>, now: string)
    returns (shown: bool, score: int, total: int)
    modifies save`stages, save`coins, save`lastPlayedAt
    ensures shown <==> run != null
    ensures run == null ==> save.stages == old(save.stages) && save.coins == old(save.coins) &&
                            save.lastPlayedAt == old(save.lastPlayedAt)
    ensures run != null ==>
              && score == run.correctCount && total == |run.questionIds|
              && save.stages == Progressed(old(save.stages), StageKey(run.stageId), run.correctCount)
              && save.coins == Some(CoinsOf(old(save.coins)) + GetOr(rewardCoin, 0))
              && save.lastPlayedAt == now
  {
    if run == null {
      return false, 0, 0;
    }
    shown := true;
    total := |run.questionIds|;
    score := run.correctCount;
    var key := StageKey(run.stageId);
    var best := if key in save.stages then save.stages[key].bestScore else None;
    var st := StageProgress(true, Some(if best.None? then score else Max(best.value, score)));
    save.stages := save.stages[key := st];
    var reward := GetOr(rewardCoin, 0);
    save.coins := Some(GetOr(save.coins, 0) + reward);
    save.SaveNow(now);
  }
}

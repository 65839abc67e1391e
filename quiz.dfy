/** The stage quiz: whether a stage is open, starting or resuming its run,
    the per-question time limit and correct index, and the question
    screen's answer/timeout/pause handling, which records exactly one
    answer per question. */
module StageQuiz {
  import opened Common
  import opened SaveModel

  /** `clamp(n, min, max)` */
  function Clamp(n: real, lo: real, hi: real): (r: real)
    requires lo <= hi
    ensures lo <= r <= hi
    ensures lo <= n <= hi ==> r == n
    ensures n < lo ==> r == lo
    ensures n > hi ==> r == hi
  {
    if n < lo then lo else if n > hi then hi else n
  }

  /** `a ?? b`: `a` unless it is null or undefined. */
  function Nullish(a: Option<Scalar>, b: Option<Scalar>): (r: Option<Scalar>)
    ensures a.Some? && a.value != SNull ==> r == a
    ensures a.None? || a == Some(SNull) ==> r == b
  {
    if a.Some? && a.value != SNull then a else b
  }

  /** The question time limit in seconds: `Number(q.time_limit ?? 10)`,
      clamped into [3, 60], and 10 when it is not a number. */
  function SafeLimit(timeLimit: Option<Scalar>): (r: real)
    ensures 3.0 <= r <= 60.0
    ensures ToNumber(Nullish(timeLimit, Some(SNum(10.0)))).None? ==> r == 10.0
    ensures timeLimit.Some? && timeLimit.value.SNum? && 3.0 <= timeLimit.value.n <= 60.0 ==> r == timeLimit.value.n
    ensures timeLimit.None? || timeLimit == Some(SNull) ==> r == 10.0
  {
    var n := ToNumber(Nullish(timeLimit, Some(SNum(10.0))));
    if n.Some? then Clamp(n.value, 3.0, 60.0) else 10.0
  }

  /** A question's answer fields, as stored. */
  datatype Question = Question(correctChoiceIndex: Option<Scalar>, correctIndex: Option<Scalar>,
                               answerIndex: Option<Scalar>, correct: Option<Scalar>)

  /** `getCorrectIndex(q)`: the first non-null of the four fields, as a
      number; `None` when that is not a number. The last field is taken as
      it is, so a null `correct` reads as `Number(null)`, 0. */
  function GetCorrectIndex(q: Question): (r: Option<real>)
    ensures q.correctChoiceIndex.Some? && q.correctChoiceIndex.value.SNum? ==> r == Some(q.correctChoiceIndex.value.n)
    ensures q.correctChoiceIndex.None? && q.correctIndex.None? && q.answerIndex.None? && q.correct.None? ==> r.None?
  {
    ToNumber(Nullish(q.correctChoiceIndex, Nullish(q.correctIndex, Nullish(q.answerIndex, q.correct))))
  }

  /** The fallbacks are taken in order, and a final null is the index 0. */
  lemma GetCorrectIndexFallbacks(a: Option<Scalar>, n: real)
    requires a.None? || a == Some(SNull)
    ensures GetCorrectIndex(Question(a, Some(SNum(n)), Some(SNum(n + 1.0)), None)) == Some(n)
    ensures GetCorrectIndex(Question(a, a, Some(SNum(n)), Some(SNum(n + 1.0)))) == Some(n)
    ensures GetCorrectIndex(Question(a, a, a, Some(SNull))) == Some(0.0)
  {
  }

  /** `shuffle(arr)`: a copy of `arr` in a random order; `choose` holds the
      draws of `Math.random()`. */
  method Shuffle<T>(arr: seq<T>, choose: seq<nat>) returns (r: seq<T>)
    requires ValidDraws(|arr|, choose)
    ensures multiset(r) == multiset(arr)
    ensures |r| == |arr|
  {
    var a := new T[|arr|](i requires 0 <= i < |arr| => arr[i]);
    assert a[..] == arr;
    ShuffleInPlace(a, choose);
    r := a[..];
    assert |r| == |multiset(r)| == |multiset(arr)| == |arr|;
  }

  /** `[0, 1, …, n-1]` */
  function Indices(n: nat): (r: seq<nat>)
    ensures |r| == n && forall i :: 0 <= i < n ==> r[i] == i
  {
    if n == 0 then [] else Indices(n - 1) + [n - 1]
  }

  /** The display order of the choices: every original index exactly once. */
  method ChoiceOrder(n: nat, choose: seq<nat>) returns (order: seq<nat>)
    requires ValidDraws(n, choose)
    ensures multiset(order) == multiset(Indices(n))
    ensures forall k :: k in order ==> k < n
  {
    order := Shuffle(Indices(n), choose);
    forall k | k in order
      ensures k < n
    {
      assert k in multiset(Indices(n));
    }
  }

  // ---------------------------------------------------------------------
  // Stages and runs
  // ---------------------------------------------------------------------

  /** `stage.unlock_condition`: its type and the stage it names. */
  datatype UnlockCondition = UnlockCondition(kind: Option<string>, stageId: Option<string>)

  datatype Stage = Stage(id: string, name: Option<string>, unlock: Option<UnlockCondition>,
                         questionIds: Option<seq<string>>)

  /** `isStageUnlocked(stage, save)` */
  function IsStageUnlocked(stage: Stage, stages: map<string, StageProgress>): (b: bool)
    ensures var kind := if stage.unlock.Some? then stage.unlock.value.kind else None;
            (kind.None? || kind == Some("always") ==> b) &&
            (kind == Some("stage_clear") ==>
              (b <==> stage.unlock.value.stageId.Some? && stage.unlock.value.stageId.value in stages &&
                      stages[stage.unlock.value.stageId.value].cleared)) &&
            (kind.Some? && kind != Some("always") && kind != Some("stage_clear") ==> !b)
  {
    var kind := GetOr(if stage.unlock.Some? then stage.unlock.value.kind else None, "always");
    if kind == "always" then true
    else if kind == "stage_clear" then
      var need := stage.unlock.value.stageId;
      need.Some? && need.value in stages && stages[need.value].cleared
    else false
  }

  /** One logged answer (`run.answers[i]`). */
  datatype AnswerLog = AnswerLog(qid: Option<string>, chosenIndex: Option<int>, correctIndex: Option<real>,
                                 isCorrect: bool, reason: string)

  /** The number of correct entries in a log. */
  function CorrectCount(log: seq<AnswerLog>): (n: nat)
    ensures n <= |log|
  {
    if log == [] then 0
    else CorrectCount(log[..|log| - 1]) + (if log[|log| - 1].isCorrect then 1 else 0)
  }

  /** `state.currentRun`: its mode and stage, and for a stage run the
      questions, the cursor, the correct count and the answer log. */
  class StageRun {
    const mode: string
    const stageId: Option<string>
    const questionIds: seq<string>
    const totalCount: nat
    const startedAt: string
    var cursor: nat
    var correctCount: nat
    var answers: seq<AnswerLog>

    /** The cursor is the number of answers given and the correct count
        the number of correct ones. */
    predicate Consistent()
      reads this
    {
      cursor == |answers| && correctCount == CorrectCount(answers) && totalCount == |questionIds|
    }

    /** A fresh stage run (the literal built by `ensureRun`). */
    constructor (stageId: string, questionIds: seq<string>, startedAt: string)
      ensures mode == "stage" && this.stageId == Some(stageId) && this.questionIds == questionIds
      ensures cursor == 0 && correctCount == 0 && answers == [] && totalCount == |questionIds|
      ensures this.startedAt == startedAt
      ensures Consistent()
    {
      mode := "stage";
      this.stageId := Some(stageId);
      this.questionIds := questionIds;
      totalCount := |questionIds|;
      this.startedAt := startedAt;
      cursor := 0;
      correctCount := 0;
      answers := [];
    }

    /** A run of another mode; only its mode and stage are read here. */
    constructor Other(mode: string, stageId: Option<string>)
      ensures this.mode == mode && this.stageId == stageId && answers == [] && cursor == 0
    {
      this.mode := mode;
      this.stageId := stageId;
      questionIds := [];
      totalCount := 0;
      startedAt := "";
      cursor := 0;
      correctCount := 0;
      answers := [];
    }
  }

  /** The application state: the run in progress, if any. */
  class AppState {
    var currentRun: StageRun?

    constructor ()
      ensures currentRun == null
    {
      currentRun := null;
    }
  }

  datatype EnsureResult = RunReady | Locked

  /** `ensureRun(state, stage)`: a locked stage is refused and the current
      run left alone; a stage run of the same stage is kept; otherwise a
      fresh run replaces it. */
  method EnsureRun(state: AppState, stage: Stage, stages: map<string, StageProgress>, startedAt: string)
    returns (r: EnsureResult)
    modifies state`currentRun
    ensures r == Locked <==> !IsStageUnlocked(stage, stages)
    ensures r == Locked ==> state.currentRun == old(state.currentRun)
    ensures (r == RunReady && old(state.currentRun) != null && old(state.currentRun).stageId == Some(stage.id) &&
             old(state.currentRun).mode == "stage") ==> state.currentRun == old(state.currentRun)
    ensures r == RunReady && !(old(state.currentRun) != null && old(state.currentRun).stageId == Some(stage.id) &&
                               old(state.currentRun).mode == "stage") ==>
              && state.currentRun != null && fresh(state.currentRun)
              && state.currentRun.mode == "stage" && state.currentRun.stageId == Some(stage.id)
              && state.currentRun.questionIds == GetOr(stage.questionIds, [])
              && state.currentRun.cursor == 0 && state.currentRun.correctCount == 0
              && state.currentRun.answers == [] && state.currentRun.Consistent()
  {
    if !IsStageUnlocked(stage, stages) {
      return Locked;
    }
    var run := state.currentRun;
    if run == null || run.stageId != Some(stage.id) || run.mode != "stage" {
      var qids := GetOr(stage.questionIds, []);
      state.currentRun := new StageRun(stage.id, qids, startedAt);
    }
    return RunReady;
  }

  // ---------------------------------------------------------------------
  // One question on screen
  // ---------------------------------------------------------------------

  /** The handlers of one rendered question: the timer, the choice buttons
      and the pause modal share the `answered` and `paused` flags. */
  class QuestionScreen {
    const run: StageRun
    const qid: Option<string>
    const correctIdx: Option<real>
    /** The number of answers the run had when the question was rendered. */
    const startCount: nat
    var answered: bool
    var paused: bool
    var remain: real

    /** The run stays consistent and has exactly one more answer than at
        render time once the question is answered, none before. */
    predicate Valid()
      reads this, run
    {
      run.Consistent() && |run.answers| == startCount + (if answered then 1 else 0)
    }

    constructor (run: StageRun, qid: Option<string>, q: Question, timeLimit: Option<Scalar>)
      requires run.Consistent()
      ensures this.run == run && this.qid == qid && correctIdx == GetCorrectIndex(q)
      ensures !answered && !paused && remain == SafeLimit(timeLimit)
      ensures Valid()
    {
      this.run := run;
      this.qid := qid;
      correctIdx := GetCorrectIndex(q);
      startCount := |run.answers|;
      answered := false;
      paused := false;
      remain := SafeLimit(timeLimit);
    }

    /** `finishByTimeout()`: once per question, log a wrong "timeout" answer
        with no chosen index and move the cursor on. */
    method FinishByTimeout()
      requires Valid()
      modifies this`answered, run`answers, run`cursor
      ensures Valid() && answered
      ensures old(answered) ==> run.answers == old(run.answers) && run.cursor == old(run.cursor)
      ensures !old(answered) ==>
                && run.answers == old(run.answers) + [AnswerLog(qid, None, correctIdx, false, "timeout")]
                && run.cursor == old(run.cursor) + 1
    {
      if answered {
        return;
      }
      answered := true;
      ghost var before := run.answers;
      run.answers := run.answers + [AnswerLog(qid, None, correctIdx, false, "timeout")];
      assert run.answers[..|run.answers| - 1] == before;
      run.cursor := run.cursor + 1;
    }

    /** `finishByAnswer(selectedIdx)`: refused when answered or paused;
        otherwise log the answer, which is correct only when there is a
        correct index and it equals the selection, count it when correct
        and move the cursor on. */
    method FinishByAnswer(selectedIdx: int)
      requires Valid()
      modifies this`answered, run`answers, run`cursor, run`correctCount
      ensures Valid()
      ensures old(answered) || old(paused) ==>
                answered == old(answered) && run.answers == old(run.answers) && run.cursor == old(run.cursor) &&
                run.correctCount == old(run.correctCount)
      ensures !old(answered) && !old(paused) ==>
                var isCorrect := correctIdx.Some? && selectedIdx as real == correctIdx.value;
                && answered
                && run.answers == old(run.answers) + [AnswerLog(qid, Some(selectedIdx), correctIdx, isCorrect, "answer")]
                && run.cursor == old(run.cursor) + 1
                && run.correctCount == old(run.correctCount) + (if isCorrect then 1 else 0)
      ensures correctIdx.None? ==> run.correctCount == old(run.correctCount)
    {
      if answered || paused {
        return;
      }
      answered := true;
      var isCorrect := if correctIdx.Some? then selectedIdx as real == correctIdx.value else false;
      ghost var before := run.answers;
      run.answers := run.answers + [AnswerLog(qid, Some(selectedIdx), correctIdx, isCorrect, "answer")];
      assert run.answers[..|run.answers| - 1] == before;
      if isCorrect {
        run.correctCount := run.correctCount + 1;
      }
      run.cursor := run.cursor + 1;
    }

    /** A click on a choice button. */
    method Click(idx: int)
      requires Valid()
      modifies this`answered, run`answers, run`cursor, run`correctCount
      ensures Valid()
      ensures old(answered) || old(paused) ==>
                answered == old(answered) && run.answers == old(run.answers) && run.cursor == old(run.cursor) &&
                run.correctCount == old(run.correctCount)
      ensures !old(answered) && !old(paused) ==>
                var isCorrect := correctIdx.Some? && idx as real == correctIdx.value;
                && answered
                && run.answers == old(run.answers) + [AnswerLog(qid, Some(idx), correctIdx, isCorrect, "answer")]
                && run.cursor == old(run.cursor) + 1
                && run.correctCount == old(run.correctCount) + (if isCorrect then 1 else 0)
    {
      if answered || paused {
        return;
      }
      FinishByAnswer(idx);
    }

    /** One second of the countdown: nothing once answered or while paused;
        otherwise one second less (never below 0), timing out at 0. */
    method Tick()
      requires Valid()
      modifies this`answered, this`remain, run`answers, run`cursor
      ensures Valid()
      ensures 0.0 <= old(remain) ==> 0.0 <= remain
      ensures old(answered) || old(paused) ==> remain == old(remain) && answered == old(answered) &&
                                               run.answers == old(run.answers)
      ensures !old(answered) && !old(paused) ==>
                && remain == Max0(old(remain) - 1.0)
                && (remain <= 0.0 ==> answered && run.answers == old(run.answers) + [AnswerLog(qid, None, correctIdx, false, "timeout")])
                && (remain > 0.0 ==> !answered && run.answers == old(run.answers))
    {
      if answered || paused {
        return;
      }
      remain := Max0(remain - 1.0);
      if remain <= 0.0 {
        FinishByTimeout();
      }
    }

    method OpenPause()
      modifies this`paused
      ensures paused
    {
      paused := true;
    }

    method ClosePause()
      modifies this`paused
      ensures !paused
    {
      paused := false;
    }
  }

  function Max0(x: real): (r: real)
    ensures r >= 0.0 && r >= x && (r == 0.0 || r == x)
  {
    if x < 0.0 then 0.0 else x
  }

  /** The retire button: the run is dropped. */
  method Retire(state: AppState)
    modifies state`currentRun
    ensures state.currentRun == null
  {
    state.currentRun := null;
  }

  /** Whether the stage is over: the cursor has passed the last question
      (the screen then goes to the result). */
  function StageOver(run: StageRun): bool
    reads run
  {
    run.cursor >= |run.questionIds|
  }

  /** On a consistent run the correct count never exceeds the cursor. */
  lemma ConsistentCounts(run: StageRun)
    requires run.Consistent()
    ensures run.correctCount <= run.cursor
  {
  }
}

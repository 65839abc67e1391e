/** Endless mode: questions in a shuffled order, taken round-robin; each
    answer counts as correct or as a miss, and the run ends at the third
    miss without any coin reward. */
module Endless {
  import opened Common
  import opened SaveModel
  import opened StageQuiz

  const MaxMiss: nat := 3

  /** A question's answer fields as endless mode reads them. */
  datatype EndlessQuestion = EndlessQuestion(correctIndex: Option<Scalar>, correctChoiceIndex: Option<Scalar>,
                                             answerIndex: Option<Scalar>)

  /** The correct index as the screen computes it: the chain
      `correct_index ?? correct_choice_index ?? answer_index ?? null` ends
      in `null`, and `Number(null)` is 0, so a question without any index
      field reads as index 0. */
  function EndlessCorrectIndexAsWritten(q: EndlessQuestion): Option<real>
  {
    ToNumber(Nullish(q.correctIndex, Nullish(q.correctChoiceIndex, Nullish(q.answerIndex, Some(SNull)))))
  }

  /** A question with no index field at all has choice 0 "correct". */
  lemma AsWrittenMissingIndexIsZero()
    ensures EndlessCorrectIndexAsWritten(EndlessQuestion(None, None, None)) == Some(0.0)
  {
  }

  /** The correct index as intended: `None` when no field gives one, so no
      choice is correct; otherwise the same number. */
  function EndlessCorrectIndex(q: EndlessQuestion): (r: Option<real>)
    ensures Nullish(q.correctIndex, Nullish(q.correctChoiceIndex, q.answerIndex)).None? ==> r.None?
    ensures r.Some? ==> r == EndlessCorrectIndexAsWritten(q)
    ensures q.correctIndex.Some? && q.correctIndex.value.SNum? ==> r == Some(q.correctIndex.value.n)
  {
    var v := Nullish(q.correctIndex, Nullish(q.correctChoiceIndex, q.answerIndex));
    if v.None? || v == Some(SNull) then None else ToNumber(v)
  }

  /** Both agree on every question that has a non-null index field. */
  lemma CorrectIndexAgrees(q: EndlessQuestion)
    requires var v := Nullish(q.correctIndex, Nullish(q.correctChoiceIndex, q.answerIndex));
             v.Some? && v.value != SNull
    ensures EndlessCorrectIndex(q) == EndlessCorrectIndexAsWritten(q)
  {
  }

  /** `state.endlessRun` */
  class EndlessRun {
    const order: seq<string>
    var cursor: nat
    var correct: nat
    var answered: nat
    var miss: nat
    var paused: bool
    var finished: bool

    /** Every answer is a correct one or a miss, a finished run has reached
        the miss limit, and there is a question to show. */
    predicate Valid()
      reads this
    {
      |order| > 0 && answered == correct + miss && (finished ==> miss >= MaxMiss)
    }

    constructor (order: seq<string>)
      requires |order| > 0
      ensures this.order == order && cursor == 0 && correct == 0 && answered == 0 && miss == 0
      ensures !paused && !finished
      ensures Valid()
    {
      this.order := order;
      cursor := 0;
      correct := 0;
      answered := 0;
      miss := 0;
      paused := false;
      finished := false;
    }

    /** `run.order[run.cursor % run.order.length]`: always a question of the
        order. */
    function CurrentQid(): (qid: string)
      requires Valid()
      reads this
      ensures qid in order && qid == order[cursor % |order|]
    {
      order[cursor % |order|]
    }

    /** A click on a choice: ignored when finished or paused; otherwise one
        more answer, and one more correct (the index matches a known
        correct index) or one more miss. */
    method Answer(idx: int, q: EndlessQuestion)
      requires Valid()
      modifies this`answered, this`correct, this`miss
      ensures Valid()
      ensures old(finished) || old(paused) ==>
                answered == old(answered) && correct == old(correct) && miss == old(miss)
      ensures !old(finished) && !old(paused) ==>
                var isCorrect := EndlessCorrectIndex(q).Some? && idx as real == EndlessCorrectIndex(q).value;
                && answered == old(answered) + 1
                && correct == old(correct) + (if isCorrect then 1 else 0)
                && miss == old(miss) + (if isCorrect then 0 else 1)
    {
      if finished || paused {
        return;
      }
      var correctIdx := EndlessCorrectIndex(q);
      answered := answered + 1;
      var isCorrect := if correctIdx.Some? then idx as real == correctIdx.value else false;
      if isCorrect {
        correct := correct + 1;
      } else {
        miss := miss + 1;
      }
    }

    /** The step after the verdict: the run finishes at the miss limit
        (stamping the save, with no coins), otherwise the next question. */
    method AfterVerdict(save: Save, now: string)
      requires Valid()
      modifies this`finished, this`cursor, save`lastPlayedAt
      ensures Valid()
      ensures old(miss) >= MaxMiss ==> finished && cursor == old(cursor) && save.lastPlayedAt == now
      ensures old(miss) < MaxMiss ==> finished == old(finished) && cursor == old(cursor) + 1 &&
                                      save.lastPlayedAt == old(save.lastPlayedAt)
    {
      if miss >= MaxMiss {
        Finish(save, now);
      } else {
        cursor := cursor + 1;
      }
    }

    /** `finish()`: marks the run finished and stamps the save; coins are
        not touched. */
    method Finish(save: Save, now: string)
      requires Valid() && miss >= MaxMiss
      modifies this`finished, save`lastPlayedAt
      ensures finished && Valid() && save.lastPlayedAt == now
    {
      finished := true;
      save.SaveNow(now);
    }

    /** The pause button; it does nothing once the run is finished. */
    method OpenPause()
      modifies this`paused
      ensures paused == (old(paused) || !finished)
    {
      if finished {
        return;
      }
      paused := true;
    }

    method ClosePause()
      modifies this`paused
      ensures !paused
    {
      paused := false;
    }
  }

  /** The part of the application state endless mode uses. */
  class EndlessState {
    var endlessRun: EndlessRun?

    constructor ()
      ensures endlessRun == null
    {
      endlessRun := null;
    }

    predicate Valid()
      reads this, endlessRun
    {
      endlessRun != null ==> endlessRun.Valid()
    }

    /** `renderEndless`: with no questions nothing starts; otherwise a run
        is created (the question ids in shuffled order) unless one exists,
        and the current question id is returned. */
    method Render(questionIds: seq<string>, choose: seq<nat>) returns (qid: Option<string>)
      requires Valid()
      requires ValidDraws(|questionIds|, choose)
      modifies this`endlessRun
      ensures Valid()
      ensures |questionIds| == 0 ==> qid.None? && endlessRun == old(endlessRun)
      ensures |questionIds| > 0 && old(endlessRun) != null ==> endlessRun == old(endlessRun)
      ensures |questionIds| > 0 && old(endlessRun) == null ==>
                && endlessRun != null && fresh(endlessRun)
                && multiset(endlessRun.order) == multiset(questionIds)
                && endlessRun.cursor == 0 && endlessRun.answered == 0
                && endlessRun.correct == 0 && endlessRun.miss == 0
                && !endlessRun.paused && !endlessRun.finished
      ensures |questionIds| > 0 ==> endlessRun != null && qid == Some(endlessRun.CurrentQid())
    {
      if |questionIds| == 0 {
        return None;
      }
      if endlessRun == null {
        var order := Shuffle(questionIds, choose);
        endlessRun := new EndlessRun(order);
      }
      qid := Some(endlessRun.order[endlessRun.cursor % |endlessRun.order|]);
    }

    /** Retiring or closing the result drops the run. */
    method Drop()
      modifies this`endlessRun
      ensures endlessRun == null && Valid()
    {
      endlessRun := null;
    }
  }

  /** A finished run has at least three misses, hence at least three
      answers. */
  lemma FinishedNeedsThreeMisses(run: EndlessRun)
    requires run.Valid() && run.finished
    ensures run.miss >= MaxMiss && run.answered >= MaxMiss
  {
  }
}

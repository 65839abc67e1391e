/** Time attack: a countdown that starts at 60000 ms over questions in a
    shuffled order; answers are counted, and when the time runs out the
    player gets five coins per correct answer, once. Every render of the
    screen starts one more animation-frame loop that counts the time down,
    so the countdown runs faster with every answer. */
module TimeAttack {
  import opened Common
  import opened SaveModel
  import opened StageQuiz
  import opened Endless

  const TotalSec: nat := 60
  const CoinsPerCorrect: nat := 5

  /** `state.timeAttackRun` */
  class TimeAttackRun {
    const order: seq<string>
    var cursor: nat
    var correct: nat
    var answered: nat
    var remainMs: real
    var paused: bool
    var rewardGiven: bool
    /** The number of `requestAnimationFrame(tick)` loops counting this
        run down: one per render of the screen. */
    var tickLoops: nat

    /** Correct answers never outnumber answers, the remaining time is never
        negative, and the reward is only given once the time is up. */
    predicate Valid()
      reads this
    {
      |order| > 0 && correct <= answered && remainMs >= 0.0 && (rewardGiven ==> remainMs == 0.0)
    }

    /** A fresh run: zero counters, 60000 ms left, no reward given. */
    constructor (order: seq<string>)
      requires |order| > 0
      ensures this.order == order && cursor == 0 && correct == 0 && answered == 0
      ensures remainMs == (TotalSec * 1000) as real && !paused && !rewardGiven && tickLoops == 0
      ensures Valid()
    {
      this.order := order;
      cursor := 0;
      correct := 0;
      answered := 0;
      remainMs := (TotalSec * 1000) as real;
      paused := false;
      rewardGiven := false;
      tickLoops := 0;
    }

    /** The current question: `order[cursor % order.length]`. */
    function CurrentQid(): (qid: string)
      requires Valid()
      reads this
      ensures qid in order && qid == order[cursor % |order|]
    {
      order[cursor % |order|]
    }

    /** A click on a choice: ignored once rewarded or while paused;
        otherwise one more answer, and one more correct exactly when the
        index matches a known correct index. */
    method Answer(idx: int, q: EndlessQuestion)
      requires Valid()
      modifies this`answered, this`correct
      ensures Valid()
      ensures old(rewardGiven) || old(paused) ==> answered == old(answered) && correct == old(correct)
      ensures !old(rewardGiven) && !old(paused) ==>
                var isCorrect := EndlessCorrectIndex(q).Some? && idx as real == EndlessCorrectIndex(q).value;
                && answered == old(answered) + 1
                && correct == old(correct) + (if isCorrect then 1 else 0)
    {
      if rewardGiven || paused {
        return;
      }
      var correctIdx := EndlessCorrectIndex(q);
      answered := answered + 1;
      var isCorrect := if correctIdx.Some? then idx as real == correctIdx.value else false;
      if isCorrect {
        correct := correct + 1;
      }
    }

    /** `nextQuestion()`: the cursor moves on by exactly one. */
    method NextQuestion()
      modifies this`cursor
      ensures cursor == old(cursor) + 1
    {
      cursor := cursor + 1;
    }

    /** `finish()`: the first call adds five coins per correct answer and
        stamps the save; later calls change nothing. */
    method Finish(save: Save, now: string)
      requires Valid() && remainMs == 0.0
      modifies this`rewardGiven, save`coins, save`lastPlayedAt
      ensures Valid() && rewardGiven
      ensures old(rewardGiven) ==> save.coins == old(save.coins) && save.lastPlayedAt == old(save.lastPlayedAt)
      ensures !old(rewardGiven) ==>
                save.coins == Some(CoinsOf(old(save.coins)) + correct * CoinsPerCorrect) && save.lastPlayedAt == now
    {
      if rewardGiven {
        return;
      }
      var reward := Max(0, correct) * CoinsPerCorrect;
      save.coins := Some(GetOr(save.coins, 0) + reward);
      save.SaveNow(now);
      rewardGiven := true;
    }

    /** One animation frame `dtMs` after the last: while running, the time
        goes down by `dtMs`; at or below zero it is set to 0 and the run
        finishes. */
    method Tick(dtMs: real, save: Save, now: string)
      requires Valid() && dtMs >= 0.0
      modifies this`remainMs, this`rewardGiven, save`coins, save`lastPlayedAt
      ensures Valid()
      ensures old(paused) || old(rewardGiven) ==>
                remainMs == old(remainMs) && rewardGiven == old(rewardGiven) &&
                save.coins == old(save.coins) && save.lastPlayedAt == old(save.lastPlayedAt)
      ensures !old(paused) && !old(rewardGiven) && old(remainMs) - dtMs > 0.0 ==>
                remainMs == old(remainMs) - dtMs && !rewardGiven &&
                save.coins == old(save.coins) && save.lastPlayedAt == old(save.lastPlayedAt)
      ensures !old(paused) && !old(rewardGiven) && old(remainMs) - dtMs <= 0.0 ==>
                remainMs == 0.0 && rewardGiven &&
                save.coins == Some(CoinsOf(old(save.coins)) + correct * CoinsPerCorrect) &&
                save.lastPlayedAt == now
    {
      if !paused && !rewardGiven {
        remainMs := remainMs - dtMs;
        if remainMs <= 0.0 {
          remainMs := 0.0;
          Finish(save, now);
        }
      }
    }

    /** One animation frame `dtMs` after the last, as the screen runs it:
        each of the `tickLoops` loops subtracts `dtMs`, so the countdown
        loses `tickLoops * dtMs`, or runs out and finishes. */
    method Frame(dtMs: real, save: Save, now: string)
      requires Valid() && dtMs >= 0.0
      modifies this`remainMs, this`rewardGiven, save`coins, save`lastPlayedAt
      ensures Valid()
      ensures old(paused) || old(rewardGiven) ==>
                remainMs == old(remainMs) && rewardGiven == old(rewardGiven) &&
                save.coins == old(save.coins) && save.lastPlayedAt == old(save.lastPlayedAt)
      ensures !old(paused) && !old(rewardGiven) ==>
                remainMs == Countdown(old(remainMs), tickLoops, [dtMs]) &&
                rewardGiven == (tickLoops > 0 && remainMs == 0.0)
      ensures !old(paused) && !old(rewardGiven) && !rewardGiven ==>
                save.coins == old(save.coins) && save.lastPlayedAt == old(save.lastPlayedAt)
      ensures !old(paused) && !old(rewardGiven) && rewardGiven ==>
                save.coins == Some(CoinsOf(old(save.coins)) + correct * CoinsPerCorrect) &&
                save.lastPlayedAt == now
    {
      ghost var r0 := remainMs;
      ghost var c0 := save.coins;
      ghost var t0 := save.lastPlayedAt;
      var k := 0;
      while k < tickLoops
        invariant 0 <= k <= tickLoops && Valid()
        invariant paused == old(paused)
        invariant k == 0 ==> remainMs == r0 && rewardGiven == old(rewardGiven) && save.coins == c0 && save.lastPlayedAt == t0
        invariant old(paused) || old(rewardGiven) ==>
                    remainMs == r0 && rewardGiven == old(rewardGiven) && save.coins == c0 && save.lastPlayedAt == t0
        invariant !old(paused) && !old(rewardGiven) && r0 - (k as real) * dtMs > 0.0 ==>
                    remainMs == r0 - (k as real) * dtMs && !rewardGiven && save.coins == c0 && save.lastPlayedAt == t0
        invariant !old(paused) && !old(rewardGiven) && r0 - (k as real) * dtMs <= 0.0 ==>
                    remainMs == 0.0 && (rewardGiven <==> k > 0) &&
                    (k > 0 ==> save.coins == Some(CoinsOf(c0) + correct * CoinsPerCorrect) && save.lastPlayedAt == now)
      {
        assert r0 - ((k + 1) as real) * dtMs == r0 - (k as real) * dtMs - dtMs;
        Tick(dtMs, save, now);
        k := k + 1;
      }
      CountdownOneFrame(r0, tickLoops, dtMs);
    }

    /** The pause button; it does nothing once the reward is given. */
    method OpenPause()
      modifies this`paused
      ensures paused == (old(paused) || !rewardGiven)
    {
      if rewardGiven {
        return;
      }
      paused := true;
    }

    /** `requestAnimationFrame(tick)` at the end of a render: one more loop. */
    method StartTickLoop()
      modifies this`tickLoops
      ensures tickLoops == old(tickLoops) + 1
    {
      tickLoops := tickLoops + 1;
    }

    method ClosePause()
      modifies this`paused
      ensures !paused
    {
      paused := false;
    }
  }

  /** The total of a run of frame intervals. */
  function SumMs(dts: seq<real>): real
  {
    if dts == [] then 0.0 else SumMs(dts[..|dts| - 1]) + dts[|dts| - 1]
  }

  /** The time left after frames `dts`, with `loops` loops each taking a
      frame's interval off, stopping at zero. */
  function Countdown(remainMs: real, loops: nat, dts: seq<real>): real
  {
    if dts == [] then remainMs
    else
      var r := Countdown(remainMs, loops, dts[..|dts| - 1]);
      if r - (loops as real) * dts[|dts| - 1] > 0.0 then r - (loops as real) * dts[|dts| - 1] else 0.0
  }

  lemma CountdownOneFrame(remainMs: real, loops: nat, dtMs: real)
    ensures Countdown(remainMs, loops, [dtMs]) ==
            if remainMs - (loops as real) * dtMs > 0.0 then remainMs - (loops as real) * dtMs else 0.0
  {
    assert [dtMs][..0] == [];
  }

  /** With `loops` loops running, the countdown loses `loops` times the
      time that passes, and never goes below zero. */
  lemma {:induction false} CountdownClosedForm(remainMs: real, loops: nat, dts: seq<real>)
    requires remainMs >= 0.0
    requires forall i :: 0 <= i < |dts| ==> dts[i] >= 0.0
    ensures var left := remainMs - (loops as real) * SumMs(dts);
            Countdown(remainMs, loops, dts) == if left > 0.0 then left else 0.0
  {
    if dts != [] {
      var init := dts[..|dts| - 1];
      var d := dts[|dts| - 1];
      CountdownClosedForm(remainMs, loops, init);
      assert (loops as real) * SumMs(dts) == (loops as real) * SumMs(init) + (loops as real) * d;
      assert (loops as real) * d >= 0.0;
    }
  }

  /** After one answer the screen has rendered twice, two loops run, and
      thirty seconds of frames use up the whole sixty. */
  lemma OneAnswerHalvesTheMinute(dts: seq<real>)
    requires forall i :: 0 <= i < |dts| ==> dts[i] >= 0.0
    requires SumMs(dts) >= 30000.0
    ensures Countdown((TotalSec * 1000) as real, 2, dts) == 0.0
  {
    CountdownClosedForm((TotalSec * 1000) as real, 2, dts);
  }

  /** With the one loop the run is meant to have, the countdown follows the
      time that passes: less than sixty seconds of frames leave exactly
      the difference. */
  lemma OneLoopFollowsTime(dts: seq<real>)
    requires forall i :: 0 <= i < |dts| ==> dts[i] >= 0.0
    requires SumMs(dts) < (TotalSec * 1000) as real
    ensures Countdown((TotalSec * 1000) as real, 1, dts) == (TotalSec * 1000) as real - SumMs(dts) > 0.0
  {
    CountdownClosedForm((TotalSec * 1000) as real, 1, dts);
  }

  /** The part of the application state time attack uses. */
  class TimeAttackState {
    var timeAttackRun: TimeAttackRun?

    constructor ()
      ensures timeAttackRun == null
    {
      timeAttackRun := null;
    }

    predicate Valid()
      reads this, timeAttackRun
    {
      timeAttackRun != null ==> timeAttackRun.Valid()
    }

    /** `renderTimeAttack`: with no questions nothing starts; otherwise a
        fresh run (the ids in shuffled order) is created unless one exists,
        and the current question id is returned. */
    method Render(questionIds: seq<string>, choose: seq<nat>) returns (qid: Option<string>)
      requires Valid()
      requires ValidDraws(|questionIds|, choose)
      modifies this`timeAttackRun, timeAttackRun
      ensures Valid()
      ensures |questionIds| == 0 ==> qid.None? && timeAttackRun == old(timeAttackRun)
      ensures |questionIds| == 0 && timeAttackRun != null ==> unchanged(timeAttackRun)
      ensures |questionIds| > 0 && old(timeAttackRun) != null ==>
                && timeAttackRun == old(timeAttackRun)
                && timeAttackRun.tickLoops == old(timeAttackRun.tickLoops) + 1
                && timeAttackRun.cursor == old(timeAttackRun.cursor)
                && timeAttackRun.correct == old(timeAttackRun.correct)
                && timeAttackRun.answered == old(timeAttackRun.answered)
                && timeAttackRun.remainMs == old(timeAttackRun.remainMs)
                && timeAttackRun.paused == old(timeAttackRun.paused)
                && timeAttackRun.rewardGiven == old(timeAttackRun.rewardGiven)
      ensures |questionIds| > 0 && old(timeAttackRun) == null ==>
                && timeAttackRun != null && fresh(timeAttackRun)
                && multiset(timeAttackRun.order) == multiset(questionIds)
                && timeAttackRun.cursor == 0 && timeAttackRun.correct == 0 && timeAttackRun.answered == 0
                && timeAttackRun.remainMs == 60000.0 && !timeAttackRun.paused && !timeAttackRun.rewardGiven
                && timeAttackRun.tickLoops == 1
      ensures |questionIds| > 0 ==> timeAttackRun != null && qid == Some(timeAttackRun.CurrentQid())
    {
      if |questionIds| == 0 {
        return None;
      }
      if timeAttackRun == null {
        var order := Shuffle(questionIds, choose);
        timeAttackRun := new TimeAttackRun(order);
      }
      qid := Some(timeAttackRun.order[timeAttackRun.cursor % |timeAttackRun.order|]);
      timeAttackRun.StartTickLoop();
    }

    /** Retiring (no reward) or closing the result drops the run. */
    method Drop()
      modifies this`timeAttackRun
      ensures timeAttackRun == null && Valid()
    {
      timeAttackRun := null;
    }
  }
}

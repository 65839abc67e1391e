/** The online battle screen's own bookkeeping: the four seats built from the
    room's players, the local speed award, scoring a `game:questionEnd` at most
    once, and the guard that lets one render send at most one answer. */
module BattleQuiz {
  import opened Common
  import BattleLogic

  const SeatCount: nat := 4
  const TimeLimitSec: int := 20
  /** `timeMs` used for a correct answer whose time is not a finite number. */
  const MissingTimeMs: real := 999999.0

  // ---------------------------------------------------------------------
  // dedupePlayers
  // ---------------------------------------------------------------------

  datatype Profile = Profile(clientId: Option<string>, name: Option<string>)

  /** An element of the incoming players array; a `null` element is `None`. */
  datatype IncomingPlayer = IncomingPlayer(clientId: Option<string>, profile: Option<Profile>, name: Option<string>)

  /** `{clientId, profile}`; an empty seat has no client id and `{}`. */
  datatype Seat = Seat(clientId: Option<string>, profile: Profile)

  const EmptySeat := Seat(None, Profile(None, None))

  /** `p?.clientId ?? p?.profile?.clientId ?? null` */
  function CidOf(p: Option<IncomingPlayer>): (cid: Option<string>)
    ensures p.None? ==> cid.None?
    ensures p.Some? && p.value.clientId.Some? ==> cid == p.value.clientId
  {
    if p.None? then None
    else Or(p.value.clientId, if p.value.profile.Some? then p.value.profile.value.clientId else None)
  }

  /** `cid` is truthy: present and not the empty string. */
  predicate HasCid(p: Option<IncomingPlayer>)
  {
    CidOf(p).Some? && CidOf(p).value != ""
  }

  /** `p.profile || p` */
  function ProfileOf(p: IncomingPlayer): Profile
  {
    if p.profile.Some? then p.profile.value else Profile(p.clientId, p.name)
  }

  /** The client ids of seats, `""` standing in for a missing one. */
  function Ids(seats: seq<Seat>): (ids: seq<string>)
    ensures |ids| == |seats|
    ensures forall i :: 0 <= i < |seats| ==> ids[i] == GetOr(seats[i].clientId, "")
  {
    if seats == [] then [] else Ids(seats[..|seats| - 1]) + [GetOr(seats[|seats| - 1].clientId, "")]
  }

  /** The truthy client ids of the incoming players, in order. */
  function ValidCids(ps: seq<Option<IncomingPlayer>>): seq<string>
  {
    if ps == [] then []
    else
      var p := ps[|ps| - 1];
      ValidCids(ps[..|ps| - 1]) + (if HasCid(p) then [CidOf(p).value] else [])
  }

  /** The players the first loop keeps: the first player of each client id. */
  function Kept(ps: seq<Option<IncomingPlayer>>): seq<Seat>
  {
    if ps == [] then []
    else
      var k := Kept(ps[..|ps| - 1]);
      var p := ps[|ps| - 1];
      if HasCid(p) && CidOf(p).value !in Ids(k) then k + [Seat(CidOf(p), ProfileOf(p.value))] else k
  }

  /** The kept seats carry exactly the distinct client ids, first occurrences
      first, the same list `Array.from(new Set(ids))` gives. */
  lemma {:induction false} KeptIds(ps: seq<Option<IncomingPlayer>>)
    ensures Ids(Kept(ps)) == Dedup(ValidCids(ps))
    ensures forall i :: 0 <= i < |Kept(ps)| ==> Kept(ps)[i].clientId.Some?
  {
    if ps != [] {
      var init := ps[..|ps| - 1];
      var p := ps[|ps| - 1];
      KeptIds(init);
      if HasCid(p) {
        AddAllSnoc([], ValidCids(init), CidOf(p).value);
        var k := Kept(init);
        if CidOf(p).value !in Ids(k) {
          var k' := k + [Seat(CidOf(p), ProfileOf(p.value))];
          assert k'[..|k'| - 1] == k;
        }
      } else {
        assert ValidCids(ps) == ValidCids(init);
        assert Kept(ps) == Kept(init);
      }
    }
  }

  /** `while (out.length < 4) out.push(empty); out.slice(0, 4)` */
  function PadToFour(k: seq<Seat>): (r: seq<Seat>)
    ensures |r| == SeatCount
    ensures forall i :: 0 <= i < SeatCount ==> r[i] == (if i < |k| then k[i] else EmptySeat)
  {
    if |k| >= SeatCount then k[..SeatCount]
    else k + seq(SeatCount - |k|, _ => EmptySeat)
  }

  /** `dedupePlayers(players)` */
  function DedupedPlayers(ps: seq<Option<IncomingPlayer>>): seq<Seat>
  {
    PadToFour(Kept(ps))
  }

  /** Exactly four seats: the first four distinct truthy client ids in input
      order, then empty seats; no client id is seated twice. */
  lemma DedupedPlayersSeats(ps: seq<Option<IncomingPlayer>>)
    ensures var r := DedupedPlayers(ps);
            var d := Dedup(ValidCids(ps));
            |r| == SeatCount &&
            (forall i :: 0 <= i < SeatCount ==>
               if i < |d| then r[i].clientId == Some(d[i]) else r[i] == EmptySeat) &&
            (forall i, j :: 0 <= i < j < SeatCount && r[i].clientId.Some? ==> r[i].clientId != r[j].clientId)
  {
    KeptIds(ps);
    DedupProperties(ValidCids(ps));
  }

  /** `dedupePlayers`: the loop with its `seen` set, then the padding loop. */
  method DedupePlayers(players: seq<Option<IncomingPlayer>>) returns (out: seq<Seat>)
    ensures out == DedupedPlayers(players)
  {
    out := [];
    var seen: set<string> := {};
    for i := 0 to |players|
      invariant out == Kept(players[..i])
      invariant forall x :: x in seen <==> x in Ids(out)
    {
      assert players[..i + 1][..i] == players[..i];
      var p := players[i];
      var cid := CidOf(p);
      if cid.None? || cid.value == "" || cid.value in seen {
        continue;
      }
      seen := seen + {cid.value};
      out := out + [Seat(cid, ProfileOf(p.value))];
      assert Ids(out)[..|out| - 1] == Ids(out[..|out| - 1]);
    }
    assert players[..|players|] == players;
    ghost var kept := out;
    while |out| < SeatCount
      invariant kept <= out
      invariant |kept| >= SeatCount ==> out == kept
      invariant |kept| < SeatCount ==>
                  (|out| <= SeatCount && out == kept + seq(|out| - |kept|, _ => EmptySeat))
    {
      out := out + [EmptySeat];
    }
    out := out[..SeatCount];
  }

  /** `run.players.forEach((p, i) => { if (p.clientId) clientIdToPi[p.clientId] = i; })`
      over the seats' client ids; a repeated id keeps its last index. */
  function SeatIndex(cids: seq<Option<string>>): map<string, nat>
  {
    if cids == [] then map[]
    else
      var m := SeatIndex(cids[..|cids| - 1]);
      var c := cids[|cids| - 1];
      if c.Some? && c.value != "" then m[c.value := |cids| - 1] else m
  }

  /** Every truthy id maps to the last index that holds it, and only those
      ids are keys. */
  lemma {:induction false} SeatIndexLastWins(cids: seq<Option<string>>)
    ensures forall c :: c in SeatIndex(cids) <==> Some(c) in cids && c != ""
    ensures forall i :: 0 <= i < |cids| && cids[i].Some? && cids[i].value != "" ==>
              i <= SeatIndex(cids)[cids[i].value] < |cids| &&
              cids[SeatIndex(cids)[cids[i].value]] == cids[i]
    ensures forall c, j :: c in SeatIndex(cids) && SeatIndex(cids)[c] < j < |cids| ==> cids[j] != Some(c)
  {
    SeatIndexKeys(cids);
    forall i | 0 <= i < |cids| && cids[i].Some? && cids[i].value != ""
      ensures i <= SeatIndex(cids)[cids[i].value] < |cids| && cids[SeatIndex(cids)[cids[i].value]] == cids[i]
    {
      SeatIndexAt(cids, i);
    }
    forall c, j | c in SeatIndex(cids) && SeatIndex(cids)[c] < j < |cids|
      ensures cids[j] != Some(c)
    {
      SeatIndexNoLater(cids, c, j);
    }
  }

  lemma {:induction false} SeatIndexKeys(cids: seq<Option<string>>)
    ensures forall c :: c in SeatIndex(cids) <==> Some(c) in cids && c != ""
  {
    if cids != [] {
      var init := cids[..|cids| - 1];
      SeatIndexKeys(init);
      assert cids == init + [cids[|cids| - 1]];
    }
  }

  lemma {:induction false} SeatIndexAt(cids: seq<Option<string>>, i: nat)
    requires i < |cids| && cids[i].Some? && cids[i].value != ""
    ensures cids[i].value in SeatIndex(cids)
    ensures i <= SeatIndex(cids)[cids[i].value] < |cids| && cids[SeatIndex(cids)[cids[i].value]] == cids[i]
  {
    var init := cids[..|cids| - 1];
    if i < |init| && cids[|cids| - 1] != cids[i] {
      assert init[i] == cids[i];
      SeatIndexAt(init, i);
      assert init[SeatIndex(init)[cids[i].value]] == cids[SeatIndex(init)[cids[i].value]];
    }
  }

  lemma {:induction false} SeatIndexNoLater(cids: seq<Option<string>>, c: string, j: nat)
    requires c in SeatIndex(cids) && SeatIndex(cids)[c] < j < |cids|
    ensures cids[j] != Some(c)
  {
    var init := cids[..|cids| - 1];
    var last := cids[|cids| - 1];
    SeatIndexKeys(cids);
    if last != Some(c) {
      assert SeatIndex(cids)[c] == SeatIndex(init)[c];
      if j < |init| {
        SeatIndexNoLater(init, c, j);
        assert init[j] == cids[j];
      }
    }
  }

  // ---------------------------------------------------------------------
  // local awardPointsBySpeed
  // ---------------------------------------------------------------------

  /** `{clientId, timeMs}` */
  datatype TimedAnswer = TimedAnswer(clientId: string, timeMs: real)

  function TimeMsOf(a: TimedAnswer): real { a.timeMs }

  function ClientOf(a: TimedAnswer): string { a.clientId }

  /** The points map after `k` rounds: a repeated client id adds up. */
  function AwardedSum(sorted: seq<TimedAnswer>, k: nat): map<string, int>
    requires k <= |sorted| && k <= |BattleLogic.AwardPoints|
  {
    if k == 0 then map[]
    else
      var m := AwardedSum(sorted, k - 1);
      var c := sorted[k - 1].clientId;
      m[c := Get0(m, c) + BattleLogic.AwardPoints[k - 1]]
  }

  /** The award of one client: the sum, over the `k` fastest answers that
      are its own, of 3, 2 or 1 by place. */
  function AwardOf(sorted: seq<TimedAnswer>, k: nat, c: string): int
    requires k <= |sorted| && k <= |BattleLogic.AwardPoints|
  {
    if k == 0 then 0
    else AwardOf(sorted, k - 1, c) + (if sorted[k - 1].clientId == c then BattleLogic.AwardPoints[k - 1] else 0)
  }

  lemma {:induction false} AwardedSumIsAwardOf(sorted: seq<TimedAnswer>, k: nat)
    requires k <= |sorted| && k <= |BattleLogic.AwardPoints|
    ensures forall c :: Get0(AwardedSum(sorted, k), c) == AwardOf(sorted, k, c)
    ensures forall c :: c in AwardedSum(sorted, k) ==> exists i :: 0 <= i < k && sorted[i].clientId == c
  {
    if k > 0 {
      AwardedSumIsAwardOf(sorted, k - 1);
    }
  }

  /** With distinct client ids, the `i`-th fastest gets `3 - i`. */
  lemma {:induction false} AwardOfDistinct(sorted: seq<TimedAnswer>, k: nat, i: nat)
    requires k <= |sorted| && k <= |BattleLogic.AwardPoints| && i < k
    requires DistinctBy(sorted, ClientOf)
    ensures AwardOf(sorted, k, sorted[i].clientId) == 3 - i
  {
    if k - 1 != i {
      AwardOfDistinct(sorted, k - 1, i);
    } else {
      AwardOfAbsent(sorted, k - 1, sorted[i].clientId);
    }
  }

  lemma {:induction false} AwardOfAbsent(sorted: seq<TimedAnswer>, k: nat, c: string)
    requires k <= |sorted| && k <= |BattleLogic.AwardPoints|
    requires forall i :: 0 <= i < k ==> sorted[i].clientId != c
    ensures AwardOf(sorted, k, c) == 0
  {
    if k > 0 {
      AwardOfAbsent(sorted, k - 1, c);
    }
  }

  /** The screen's `awardPointsBySpeed(correctList)`. */
  method LocalAwardPointsBySpeed(correctList: seq<TimedAnswer>) returns (points: map<string, int>)
    ensures var sorted := SortByKey(correctList, TimeMsOf);
            var k := Min(|BattleLogic.AwardPoints|, |sorted|);
            && points == AwardedSum(sorted, k)
            && (forall c :: Get0(points, c) == AwardOf(sorted, k, c))
            && (forall c :: c in points ==> exists i :: 0 <= i < k && sorted[i].clientId == c)
            && (DistinctBy(correctList, ClientOf) ==>
                  forall i :: 0 <= i < k ==> Get0(points, sorted[i].clientId) == 3 - i)
  {
    var sorted := SortByKey(correctList, TimeMsOf);
    points := SumFastest(sorted);
    AwardedSumIsAwardOf(sorted, Min(|BattleLogic.AwardPoints|, |sorted|));
    if DistinctBy(correctList, ClientOf) {
      AwardOfFastest(correctList);
    }
  }

  /** The loop of `awardPointsBySpeed` over the sorted answers. */
  method SumFastest(sorted: seq<TimedAnswer>) returns (points: map<string, int>)
    ensures points == AwardedSum(sorted, Min(|BattleLogic.AwardPoints|, |sorted|))
  {
    var awards := BattleLogic.AwardPoints;
    points := map[];
    var k := Min(|awards|, |sorted|);
    for r := 0 to k
      invariant points == AwardedSum(sorted, r)
    {
      var c := sorted[r].clientId;
      points := points[c := Get0(points, c) + awards[r]];
    }
  }

  /** With distinct client ids, the `i`-th fastest of the sorted answers
      gets `3 - i`. */
  lemma AwardOfFastest(correctList: seq<TimedAnswer>)
    requires DistinctBy(correctList, ClientOf)
    ensures var sorted := SortByKey(correctList, TimeMsOf);
            var k := Min(|BattleLogic.AwardPoints|, |sorted|);
            forall i :: 0 <= i < k ==> AwardOf(sorted, k, sorted[i].clientId) == 3 - i
  {
    var sorted := SortByKey(correctList, TimeMsOf);
    var k := Min(|BattleLogic.AwardPoints|, |sorted|);
    SortByKeyDistinct(correctList, TimeMsOf, ClientOf);
    forall i | 0 <= i < k
      ensures AwardOf(sorted, k, sorted[i].clientId) == 3 - i
    {
      AwardOfDistinct(sorted, k, i);
    }
  }

  // ---------------------------------------------------------------------
  // game:questionEnd
  // ---------------------------------------------------------------------

  /** `{choiceIndex, timeMs}` as received; either may be missing or null. */
  datatype AnswerMsg = AnswerMsg(choiceIndex: Option<Scalar>, timeMs: Option<Scalar>)

  /** `Number(a?.choiceIndex)`; `None` is NaN. */
  function ChoiceOf(a: AnswerMsg): Option<real>
  {
    ToNumber(a.choiceIndex)
  }

  /** `choiceIndex === -1`: the player ran out of time. */
  predicate TimedOut(a: AnswerMsg)
  {
    ChoiceOf(a) == Some(-1.0)
  }

  /** `ok`: a known correct index that the choice equals (NaN equals nothing). */
  predicate IsCorrect(a: AnswerMsg, correctIdx: Option<real>)
  {
    correctIdx.Some? && ChoiceOf(a) == correctIdx
  }

  /** The answer time, 999999 when it is not a number. */
  function TimeMsOrMissing(a: AnswerMsg): real
  {
    var t := ToNumber(a.timeMs);
    if t.Some? then t.value else MissingTimeMs
  }

  /** The first loop of the handler: correct, non-timeout answers in order. */
  function CorrectListOf(answers: seq<(string, AnswerMsg)>, correctIdx: Option<real>): seq<TimedAnswer>
  {
    if answers == [] then []
    else
      var e := answers[|answers| - 1];
      CorrectListOf(answers[..|answers| - 1], correctIdx) +
        (if !TimedOut(e.1) && IsCorrect(e.1, correctIdx) then [TimedAnswer(e.0, TimeMsOrMissing(e.1))] else [])
  }

  /** Every ranked answer comes from a non-timeout answer of the same client. */
  lemma {:induction false} CorrectListFromAnswers(answers: seq<(string, AnswerMsg)>, correctIdx: Option<real>)
    ensures forall t :: t in CorrectListOf(answers, correctIdx) ==>
              exists k :: 0 <= k < |answers| && answers[k].0 == t.clientId && !TimedOut(answers[k].1)
  {
    if answers != [] {
      var init := answers[..|answers| - 1];
      CorrectListFromAnswers(init, correctIdx);
      forall t | t in CorrectListOf(answers, correctIdx)
        ensures exists k :: 0 <= k < |answers| && answers[k].0 == t.clientId && !TimedOut(answers[k].1)
      {
        if t in CorrectListOf(init, correctIdx) {
          var k :| 0 <= k < |init| && init[k].0 == t.clientId && !TimedOut(init[k].1);
          assert answers[k] == init[k];
        } else {
          assert answers[|answers| - 1].0 == t.clientId;
        }
      }
    }
  }

  /** The award map of a question. */
  function AwardFor(answers: seq<(string, AnswerMsg)>, correctIdx: Option<real>): map<string, int>
  {
    var sorted := SortByKey(CorrectListOf(answers, correctIdx), TimeMsOf);
    AwardedSum(sorted, Min(|BattleLogic.AwardPoints|, |sorted|))
  }

  /** A client all of whose answers are timeouts is not in the ranked list. */
  lemma {:induction false} CorrectListSkipsTimedOut(answers: seq<(string, AnswerMsg)>, correctIdx: Option<real>, c: string)
    requires forall j :: 0 <= j < |answers| && answers[j].0 == c ==> TimedOut(answers[j].1)
    ensures forall t :: t in CorrectListOf(answers, correctIdx) ==> t.clientId != c
  {
    if answers != [] {
      var init := answers[..|answers| - 1];
      forall j | 0 <= j < |init| && init[j].0 == c ensures TimedOut(init[j].1) {
        assert init[j] == answers[j];
      }
      CorrectListSkipsTimedOut(init, correctIdx, c);
    }
  }

  /** A timeout answer earns nothing (object keys are distinct). */
  lemma TimeoutEarnsNothing(answers: seq<(string, AnswerMsg)>, correctIdx: Option<real>, k: nat)
    requires k < |answers| && TimedOut(answers[k].1)
    requires forall i, j :: 0 <= i < j < |answers| ==> answers[i].0 != answers[j].0
    ensures answers[k].0 !in AwardFor(answers, correctIdx)
  {
    var c := answers[k].0;
    var cl := CorrectListOf(answers, correctIdx);
    var sorted := SortByKey(cl, TimeMsOf);
    var n := Min(|BattleLogic.AwardPoints|, |sorted|);
    forall j | 0 <= j < |answers| && answers[j].0 == c ensures TimedOut(answers[j].1) {
      assert j == k;
    }
    CorrectListSkipsTimedOut(answers, correctIdx, c);
    forall i | 0 <= i < n
      ensures sorted[i].clientId != c
    {
      assert sorted[i] in multiset(cl);
    }
    AwardedSumIsAwardOf(sorted, n);
  }

  /** The second loop: every non-timeout answer whose client has a seat adds
      that client's award to the seat. */
  function ApplyAwards(points: map<nat, int>, answers: seq<(string, AnswerMsg)>,
                       seatOf: map<string, nat>, award: map<string, int>): map<nat, int>
  {
    if answers == [] then points
    else
      var p := ApplyAwards(points, answers[..|answers| - 1], seatOf, award);
      var e := answers[|answers| - 1];
      if !TimedOut(e.1) && e.0 in seatOf then p[seatOf[e.0] := Get0(p, seatOf[e.0]) + Get0(award, e.0)]
      else p
  }

  /** The points one seat gains: the awards of the non-timeout answers whose
      client sits there. */
  function GainFor(answers: seq<(string, AnswerMsg)>, seatOf: map<string, nat>, award: map<string, int>, pi: nat): int
  {
    if answers == [] then 0
    else
      (if !TimedOut(answers[0].1) && answers[0].0 in seatOf && seatOf[answers[0].0] == pi
       then Get0(award, answers[0].0) else 0)
      + GainFor(answers[1..], seatOf, award, pi)
  }

  lemma {:induction false} GainForSnoc(answers: seq<(string, AnswerMsg)>, e: (string, AnswerMsg),
                                       seatOf: map<string, nat>, award: map<string, int>, pi: nat)
    ensures GainFor(answers + [e], seatOf, award, pi) ==
            GainFor(answers, seatOf, award, pi) +
            (if !TimedOut(e.1) && e.0 in seatOf && seatOf[e.0] == pi then Get0(award, e.0) else 0)
  {
    if answers != [] {
      assert (answers + [e])[1..] == answers[1..] + [e];
      GainForSnoc(answers[1..], e, seatOf, award, pi);
    } else {
      assert ([e])[1..] == [];
    }
  }

  /** A seat's points rise by exactly the awards of the answers seated there;
      seats nobody answered for keep their points. */
  lemma {:induction false} ApplyAwardsGain(points: map<nat, int>, answers: seq<(string, AnswerMsg)>,
                                           seatOf: map<string, nat>, award: map<string, int>, pi: nat)
    ensures Get0(ApplyAwards(points, answers, seatOf, award), pi) ==
            Get0(points, pi) + GainFor(answers, seatOf, award, pi)
  {
    if answers != [] {
      var init := answers[..|answers| - 1];
      var e := answers[|answers| - 1];
      ApplyAwardsGain(points, init, seatOf, award, pi);
      assert answers == init + [e];
      GainForSnoc(init, e, seatOf, award, pi);
    }
  }

  /** What a `game:questionEnd` changes in the run. */
  datatype Scoreboard = Scoreboard(points: map<nat, int>, scored: set<int>,
                                   answersByIndex: map<int, seq<(string, AnswerMsg)>>)

  /** The handler for the render of question `idx`: an event for another or a
      non-numeric index, or for a question already scored, changes nothing. */
  function QuestionEnd(sb: Scoreboard, idx: int, qIndex: Option<real>, answers: seq<(string, AnswerMsg)>,
                       correctIdx: Option<real>, seatOf: map<string, nat>): (r: Scoreboard)
    ensures qIndex != Some(idx as real) || idx in sb.scored ==> r == sb
    ensures qIndex == Some(idx as real) ==> idx in r.scored
  {
    if qIndex != Some(idx as real) || idx in sb.scored then sb
    else Scoreboard(ApplyAwards(sb.points, answers, seatOf, AwardFor(answers, correctIdx)),
                    sb.scored + {idx}, sb.answersByIndex[idx := answers])
  }

  /** A question is scored at most once: a repeated event changes nothing. */
  lemma QuestionEndOnce(sb: Scoreboard, idx: int, qIndex: Option<real>, answers: seq<(string, AnswerMsg)>,
                        answers2: seq<(string, AnswerMsg)>, correctIdx: Option<real>, seatOf: map<string, nat>)
    ensures var once := QuestionEnd(sb, idx, qIndex, answers, correctIdx, seatOf);
            QuestionEnd(once, idx, qIndex, answers2, correctIdx, seatOf) == once
  {
  }

  /** The first half of the handler: the correct, non-timeout answers
      ranked by `awardPointsBySpeed`. */
  method QuestionAward(answers: seq<(string, AnswerMsg)>, correctIdx: Option<real>) returns (award: map<string, int>)
    ensures award == AwardFor(answers, correctIdx)
  {
    var correctList := CollectCorrect(answers, correctIdx);
    award := LocalAwardPointsBySpeed(correctList);
  }

  /** The run as the battle screen keeps it between renders. */
  class OnlineRun {
    var index: int
    var players: seq<Seat>
    var questionIds: seq<string>
    var points: map<nat, int>
    var scored: set<int>
    var answersByIndex: map<int, seq<(string, AnswerMsg)>>
    var answeredPing: map<int, set<Option<string>>>
    /** `run.__quizSubscribed`, and what the one `game:event` handler closed
        over when the render that subscribed it ran: its question index, its
        correct index, its seat map and its `ended` flag. */
    var quizSubscribed: bool
    var boundIdx: int
    var boundCorrectIdx: Option<real>
    var boundSeatOf: map<string, nat>
    var boundRender: QuestionRender?

    function Board(): Scoreboard
      reads this
    {
      Scoreboard(points, scored, answersByIndex)
    }

    /** `game:questionEnd` for the render of question `idx`, whose correct
        index is `correctIdx` and whose seat map is `seatOf`. */
    method OnQuestionEnd(idx: int, qIndex: Option<real>, answers: seq<(string, AnswerMsg)>,
                         correctIdx: Option<real>, seatOf: map<string, nat>)
      modifies this`points, this`scored, this`answersByIndex
      ensures Board() == QuestionEnd(old(Board()), idx, qIndex, answers, correctIdx, seatOf)
    {
      if qIndex.None? || qIndex.value != idx as real {
        return;
      }
      if idx in scored {
        return;
      }
      scored := scored + {idx};
      answersByIndex := answersByIndex[idx := answers];
      var award := QuestionAward(answers, correctIdx);
      AddAwards(answers, seatOf, award);
    }

    /** The marks-and-points loop of the handler. */
    method AddAwards(answers: seq<(string, AnswerMsg)>, seatOf: map<string, nat>, award: map<string, int>)
      modifies this`points
      ensures points == ApplyAwards(old(points), answers, seatOf, award)
    {
      ghost var p0 := points;
      for i := 0 to |answers|
        invariant points == ApplyAwards(p0, answers[..i], seatOf, award)
      {
        assert answers[..i + 1][..i] == answers[..i];
        var (cid, a) := answers[i];
        if TimedOut(a) {
          continue;
        }
        if cid in seatOf {
          var pi := seatOf[cid];
          points := points[pi := Get0(points, pi) + Get0(award, cid)];
        }
      }
      assert answers[..|answers|] == answers;
    }

    /** `game:answer`: remembers who has answered question `idx`. */
    method OnAnswerPing(idx: int, qIndex: Option<real>, clientId: Option<string>)
      modifies this`answeredPing
      ensures qIndex != Some(idx as real) ==> answeredPing == old(answeredPing)
      ensures qIndex == Some(idx as real) ==>
                answeredPing == old(answeredPing)[idx := (if idx in old(answeredPing) then old(answeredPing)[idx] else {}) + {clientId}]
    {
      if qIndex != Some(idx as real) {
        return;
      }
      var pinged := if idx in answeredPing then answeredPing[idx] else {};
      answeredPing := answeredPing[idx := pinged + {clientId}];
    }

    /** `game:begin`: the payload's players and question ids replace the
        run's when they are arrays. */
    method OnBegin(bpPlayers: Option<seq<Option<IncomingPlayer>>>, bpQuestionIds: Option<seq<string>>)
      modifies this`players, this`questionIds
      ensures players == (if bpPlayers.Some? then DedupedPlayers(bpPlayers.value) else old(players))
      ensures questionIds == GetOr(bpQuestionIds, old(questionIds))
    {
      if bpPlayers.Some? {
        players := DedupePlayers(bpPlayers.value);
      }
      if bpQuestionIds.Some? {
        questionIds := bpQuestionIds.value;
      }
    }

    /** The render of question `idx` subscribes the `game:event` handler
        only when none is subscribed yet; a later render leaves the first
        render's values bound. */
    method Subscribe(idx: int, correctIdx: Option<real>, seatOf: map<string, nat>, render: QuestionRender)
      requires quizSubscribed ==> boundRender != null
      modifies this`quizSubscribed, this`boundIdx, this`boundCorrectIdx, this`boundSeatOf, this`boundRender
      ensures quizSubscribed && boundRender != null
      ensures old(quizSubscribed) ==>
                boundIdx == old(boundIdx) && boundCorrectIdx == old(boundCorrectIdx) &&
                boundSeatOf == old(boundSeatOf) && boundRender == old(boundRender)
      ensures !old(quizSubscribed) ==>
                boundIdx == idx && boundCorrectIdx == correctIdx && boundSeatOf == seatOf && boundRender == render
    {
      if quizSubscribed {
        return;
      }
      quizSubscribed := true;
      boundIdx := idx;
      boundCorrectIdx := correctIdx;
      boundSeatOf := seatOf;
      boundRender := render;
    }

    /** `game:questionEnd` as the subscribed handler receives it: judged
        against the subscribing render's question, correct index and seats,
        whichever question is on screen. */
    method HandleQuestionEnd(qIndex: Option<real>, answers: seq<(string, AnswerMsg)>)
      requires quizSubscribed
      modifies this`points, this`scored, this`answersByIndex
      ensures Board() == QuestionEnd(old(Board()), boundIdx, qIndex, answers, boundCorrectIdx, boundSeatOf)
    {
      OnQuestionEnd(boundIdx, qIndex, answers, boundCorrectIdx, boundSeatOf);
    }

    /** `game:answer` as the subscribed handler receives it: only pings for
        the subscribing render's question are kept. */
    method HandleAnswerPing(qIndex: Option<real>, clientId: Option<string>)
      requires quizSubscribed
      modifies this`answeredPing
      ensures qIndex != Some(boundIdx as real) ==> answeredPing == old(answeredPing)
      ensures qIndex == Some(boundIdx as real) ==>
                answeredPing == old(answeredPing)[boundIdx := (if boundIdx in old(answeredPing) then old(answeredPing)[boundIdx] else {}) + {clientId}]
    {
      OnAnswerPing(boundIdx, qIndex, clientId);
    }

    /** `game:next`: a numeric index becomes the run's index and ends the
        subscribing render; the render now on screen is not ended. */
    method HandleNext(next: Option<int>)
      requires quizSubscribed && boundRender != null && boundRender.Valid()
      modifies this`index, boundRender`ended
      ensures boundRender.Valid()
      ensures next.None? ==> index == old(index) && boundRender.ended == old(boundRender.ended)
      ensures next.Some? ==> index == next.value && boundRender.ended
    {
      if next.None? {
        return;
      }
      index := next.value;
      boundRender.End();
    }

    /** `game:finished`: ends the subscribing render. */
    method HandleFinished()
      requires quizSubscribed && boundRender != null && boundRender.Valid()
      modifies boundRender`ended
      ensures boundRender.Valid() && boundRender.ended
    {
      boundRender.End();
    }
  }

  /** One question of an online run: the render of question `idx` (its
      correct index and its seat map) and the answers of that question's
      `game:questionEnd`. */
  datatype QuestionPlay = QuestionPlay(idx: int, correctIdx: Option<real>, seatOf: map<string, nat>,
                                       answers: seq<(string, AnswerMsg)>)

  /** The run's scoreboard when every question's end event is judged by the
      render that showed that question. */
  function ScoredPerRender(sb: Scoreboard, plays: seq<QuestionPlay>): Scoreboard
  {
    if plays == [] then sb
    else
      var p := plays[|plays| - 1];
      QuestionEnd(ScoredPerRender(sb, plays[..|plays| - 1]), p.idx, Some(p.idx as real),
                  p.answers, p.correctIdx, p.seatOf)
  }

  /** The run's scoreboard when one handler, subscribed by the render of
      `first`, judges every question's end event. */
  function ScoredAsSubscribed(sb: Scoreboard, first: QuestionPlay, plays: seq<QuestionPlay>): Scoreboard
  {
    if plays == [] then sb
    else
      var p := plays[|plays| - 1];
      QuestionEnd(ScoredAsSubscribed(sb, first, plays[..|plays| - 1]), first.idx, Some(p.idx as real),
                  p.answers, first.correctIdx, first.seatOf)
  }

  /** The question indices of a run. */
  function Indices(plays: seq<QuestionPlay>): (r: set<int>)
    ensures forall k :: 0 <= k < |plays| ==> plays[k].idx in r
    ensures forall i :: i in r ==> exists k :: 0 <= k < |plays| && plays[k].idx == i
  {
    if plays == [] then {} else Indices(plays[..|plays| - 1]) + {plays[|plays| - 1].idx}
  }

  /** Judged per render, every question played is scored. */
  lemma {:induction false} PerRenderScoresEvery(sb: Scoreboard, plays: seq<QuestionPlay>)
    ensures ScoredPerRender(sb, plays).scored == sb.scored + Indices(plays)
  {
    if plays != [] {
      PerRenderScoresEvery(sb, plays[..|plays| - 1]);
    }
  }

  /** Judged by the subscribed handler, no question but the subscribing
      render's is ever scored, and a run none of whose events is for that
      question keeps its scoreboard. */
  lemma {:induction false} SubscribedScoresOnlyFirst(sb: Scoreboard, first: QuestionPlay, plays: seq<QuestionPlay>)
    ensures ScoredAsSubscribed(sb, first, plays).scored <= sb.scored + {first.idx}
    ensures (forall i :: 0 <= i < |plays| ==> plays[i].idx != first.idx) ==>
              ScoredAsSubscribed(sb, first, plays) == sb
  {
    if plays != [] {
      var init := plays[..|plays| - 1];
      SubscribedScoresOnlyFirst(sb, first, init);
      if forall i :: 0 <= i < |plays| ==> plays[i].idx != first.idx {
        assert forall i :: 0 <= i < |init| ==> init[i].idx != first.idx by {
          forall i | 0 <= i < |init| ensures init[i].idx != first.idx {
            assert init[i] == plays[i];
          }
        }
      }
    }
  }

  /** Questions 0 and 1 of a fresh run: judged per render both are scored;
      judged by the handler question 0's render subscribed, question 1's
      end event leaves the points and the scored set as question 0 left
      them. */
  lemma SecondQuestionUnscored(sb: Scoreboard, plays: seq<QuestionPlay>)
    requires |plays| == 2 && plays[0].idx == 0 && plays[1].idx == 1 && sb.scored == {}
    ensures ScoredPerRender(sb, plays).scored == {0, 1}
    ensures ScoredAsSubscribed(sb, plays[0], plays) == ScoredAsSubscribed(sb, plays[0], plays[..1])
    ensures ScoredAsSubscribed(sb, plays[0], plays).scored == {0}
  {
    PerRenderScoresEvery(sb, plays);
    SubscribedScoresOnlyFirst(sb, plays[0], plays);
  }

  /** The first loop of the `game:questionEnd` handler. */
  method CollectCorrect(answers: seq<(string, AnswerMsg)>, correctIdx: Option<real>)
    returns (correctList: seq<TimedAnswer>)
    ensures correctList == CorrectListOf(answers, correctIdx)
  {
    correctList := [];
    for i := 0 to |answers|
      invariant correctList == CorrectListOf(answers[..i], correctIdx)
    {
      assert answers[..i + 1][..i] == answers[..i];
      var (cid, a) := answers[i];
      if TimedOut(a) {
        continue;
      }
      if IsCorrect(a, correctIdx) {
        correctList := correctList + [TimedAnswer(cid, TimeMsOrMissing(a))];
      }
    }
    assert answers[..|answers|] == answers;
  }

  // ---------------------------------------------------------------------
  // One question render: the answered / ended guard
  // ---------------------------------------------------------------------

  /** `{choiceIndex, timeMs}` sent to the server. */
  datatype SentAnswer = SentAnswer(choiceIndex: int, timeMs: int)

  /** The closure state of one render of a battle question. */
  class QuestionRender {
    const startAtMs: int
    var ended: bool
    var answered: bool
    var timerStopped: bool
    var sent: seq<SentAnswer>

    /** At most one answer is sent, and one is sent exactly when `answered`. */
    predicate Valid()
      reads this
    {
      |sent| <= 1 && (answered <==> |sent| == 1)
    }

    constructor (startAtMs: int)
      ensures this.startAtMs == startAtMs
      ensures !ended && !answered && !timerStopped && sent == []
      ensures Valid()
    {
      this.startAtMs := startAtMs;
      ended := false;
      answered := false;
      timerStopped := false;
      sent := [];
    }

    /** A click on choice `i` at `nowMs`. */
    method Click(i: nat, nowMs: int)
      requires Valid()
      modifies this`answered, this`sent
      ensures Valid()
      ensures old(ended || answered) ==> answered == old(answered) && sent == old(sent)
      ensures !old(ended || answered) ==> answered && sent == [SentAnswer(i, Max(0, nowMs - startAtMs))]
    {
      if ended || answered {
        return;
      }
      answered := true;
      var timeMs := Max(0, nowMs - startAtMs);
      sent := sent + [SentAnswer(i, timeMs)];
    }

    /** One 100 ms timer tick at `nowMs`: once 20 s have elapsed the timer
        stops and, if nothing was sent, a timeout answer is sent. */
    method Tick(nowMs: int)
      requires Valid()
      modifies this`answered, this`sent, this`timerStopped
      ensures Valid()
      ensures old(ended || timerStopped) || nowMs - startAtMs < TimeLimitSec * 1000 ==>
                answered == old(answered) && sent == old(sent) && timerStopped == old(timerStopped)
      ensures !old(ended || timerStopped) && nowMs - startAtMs >= TimeLimitSec * 1000 ==>
                timerStopped && answered &&
                sent == (if old(answered) then old(sent) else [SentAnswer(-1, TimeLimitSec * 1000)])
    {
      if ended || timerStopped {
        return;
      }
      var elapsed := (nowMs - startAtMs) as real / 1000.0;
      if elapsed >= TimeLimitSec as real {
        timerStopped := true;
        if !answered {
          answered := true;
          sent := sent + [SentAnswer(-1, TimeLimitSec * 1000)];
        }
      }
    }

    /** `game:next` with a numeric index, `game:finished`, or retiring: the
        render is over and sends nothing more. */
    method End()
      requires Valid()
      modifies this`ended
      ensures Valid() && ended
      ensures answered == old(answered) && sent == old(sent) && timerStopped == old(timerStopped)
    {
      ended := true;
    }
  }
}

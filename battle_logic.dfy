/** The battle rules shared by CPU and online matches: speed-ranked awards of
    3/2/1 points, per-question accumulation into a run, final standings with a
    four-level tie-break, the coin table by rank, and win/lose (only rank 1
    wins). Nothing here depends on the UI or the transport. */
module BattleLogic {
  import opened Common

  const QuestionsPerMatch: nat := 10
  const TimeLimitSec: nat := 20
  /** Points for the fastest, second and third correct answer. */
  const AwardPoints: seq<int> := [3, 2, 1]
  /** COIN_REWARD_BY_RANK */
  const CoinRewardByRankTable: map<int, int> := map[1 := 30, 2 := 20, 3 := 10, 4 := 0]

  /** `COIN_REWARD_BY_RANK[rank] ?? 0` */
  function CoinRewardTable(rank: int): (coins: int)
    ensures 0 <= coins <= 30
    ensures coins == 30 <==> rank == 1
    ensures coins > 0 <==> 1 <= rank <= 3
  {
    if rank in CoinRewardByRankTable then CoinRewardByRankTable[rank] else 0
  }

  // ---------------------------------------------------------------------
  // awardPointsBySpeed
  // ---------------------------------------------------------------------

  /** `{pi, tSec}`: a seat index and its answer time in seconds. */
  datatype CorrectAnswer = CorrectAnswer(pi: nat, tSec: real)

  function TimeOf(a: CorrectAnswer): real { a.tSec }

  function SeatOf(a: CorrectAnswer): nat { a.pi }

  /** `[...correctAnswers].sort((a, b) => a.tSec - b.tSec)` */
  function SortByTime(s: seq<CorrectAnswer>): seq<CorrectAnswer>
  {
    SortByKey(s, TimeOf)
  }

  /** The sorted answers are ascending by time, and answers with equal times
      keep their input order. */
  lemma SortByTimeStable(s: seq<CorrectAnswer>, t: real)
    ensures AscendingBy(SortByTime(s), TimeOf)
    ensures WithKey(SortByTime(s), TimeOf, t) == WithKey(s, TimeOf, t)
  {
    SortByKeyAscending(s, TimeOf);
    SortByKeyStable(s, TimeOf, t);
  }

  predicate DistinctPis(s: seq<CorrectAnswer>)
  {
    DistinctBy(s, SeatOf)
  }

  /** The points map after the first `k` rounds of the award loop: each round
      sets the seat of the `i`-th fastest answer to `AwardPoints[i]`. */
  function Awarded(sorted: seq<CorrectAnswer>, k: nat): map<nat, int>
    requires k <= |sorted| && k <= |AwardPoints|
  {
    if k == 0 then map[]
    else Awarded(sorted, k - 1)[sorted[k - 1].pi := AwardPoints[k - 1]]
  }

  /** Only seats among the `k` fastest are awarded, and every award is 1..3. */
  lemma {:induction false} AwardedOnlyFastest(sorted: seq<CorrectAnswer>, k: nat)
    requires k <= |sorted| && k <= |AwardPoints|
    ensures forall pi :: pi in Awarded(sorted, k) ==>
              1 <= Awarded(sorted, k)[pi] <= 3 &&
              exists i :: 0 <= i < k && sorted[i].pi == pi
  {
    if k > 0 {
      AwardedOnlyFastest(sorted, k - 1);
    }
  }

  /** With distinct seats, the `i`-th fastest of the first `k` gets `3 - i`
      and the map has exactly `k` entries. */
  lemma {:induction false} AwardedBySpeed(sorted: seq<CorrectAnswer>, k: nat)
    requires k <= |sorted| && k <= |AwardPoints|
    requires DistinctPis(sorted)
    ensures |Awarded(sorted, k)| == k
    ensures forall i :: 0 <= i < k ==>
              sorted[i].pi in Awarded(sorted, k) && Awarded(sorted, k)[sorted[i].pi] == 3 - i
  {
    if k > 0 {
      var p := sorted[k - 1].pi;
      AwardedBySpeed(sorted, k - 1);
      forall i | 0 <= i < k - 1 ensures sorted[i].pi != p {
        assert SeatOf(sorted[i]) != SeatOf(sorted[k - 1]);
      }
      AwardedSkipsOthers(sorted, k - 1, p);
      forall i | 0 <= i < k - 1
        ensures Awarded(sorted, k)[sorted[i].pi] == 3 - i
      {
        assert sorted[i].pi != p;
      }
    }
  }

  /** A seat none of the first `k` answers holds is not awarded. */
  lemma {:induction false} AwardedSkipsOthers(sorted: seq<CorrectAnswer>, k: nat, p: nat)
    requires k <= |sorted| && k <= |AwardPoints|
    requires forall i :: 0 <= i < k ==> sorted[i].pi != p
    ensures p !in Awarded(sorted, k)
  {
    if k > 0 {
      AwardedSkipsOthers(sorted, k - 1, p);
    }
  }

  /** `awardPointsBySpeed(correctAnswers)`: returns the answers sorted by
      time and the map from seat to awarded points. */
  method AwardPointsBySpeed(correctAnswers: seq<CorrectAnswer>)
    returns (sorted: seq<CorrectAnswer>, pointsMap: map<nat, int>)
    ensures sorted == SortByTime(correctAnswers)
    ensures multiset(sorted) == multiset(correctAnswers) && AscendingBy(sorted, TimeOf)
    ensures pointsMap == Awarded(sorted, Min(|AwardPoints|, |sorted|))
    ensures forall pi :: pi in pointsMap ==>
              1 <= pointsMap[pi] <= 3 &&
              exists i :: 0 <= i < Min(3, |sorted|) && sorted[i].pi == pi
    ensures DistinctPis(correctAnswers) ==>
              |pointsMap| == Min(3, |correctAnswers|) &&
              forall i :: 0 <= i < Min(3, |sorted|) ==>
                sorted[i].pi in pointsMap && pointsMap[sorted[i].pi] == 3 - i
  {
    sorted := SortByTime(correctAnswers);
    SortByKeyAscending(correctAnswers, TimeOf);
    pointsMap := map[];
    var n := Min(|AwardPoints|, |sorted|);
    for i := 0 to n
      invariant pointsMap == Awarded(sorted, i)
    {
      pointsMap := pointsMap[sorted[i].pi := AwardPoints[i]];
    }
    AwardedOnlyFastest(sorted, n);
    if DistinctPis(correctAnswers) {
      SortByKeyDistinct(correctAnswers, TimeOf, SeatOf);
      AwardedBySpeed(sorted, n);
    }
  }

  // ---------------------------------------------------------------------
  // applyQuestionResult
  // ---------------------------------------------------------------------

  datatype EndReason = AllAnswered | Timeout

  /** `{pi, answered, correct, tSec|null, choiceIndex|null}` */
  datatype Entry = Entry(pi: nat, answered: bool, correct: bool, tSec: Option<real>, choiceIndex: Option<int>)

  datatype QuestionResult = QuestionResult(qid: string, correctIdx: Option<int>, entries: seq<Entry>, endReason: EndReason)

  /** One element of `run.answers`; `awarded` is the points map. */
  datatype AnswerRecord = AnswerRecord(qid: string, correctIdx: Option<int>, entries: seq<Entry>,
                                       endReason: EndReason, awarded: map<nat, int>)

  /** Only an answered, correct entry with a numeric time is ranked. */
  predicate Qualifies(e: Entry)
  {
    e.answered && e.correct && e.tSec.Some?
  }

  /** The ranked list built by the first loop, in entry order. */
  function CorrectListOf(es: seq<Entry>): (r: seq<CorrectAnswer>)
    ensures |r| <= |es|
  {
    if es == [] then []
    else
      var e := es[|es| - 1];
      CorrectListOf(es[..|es| - 1]) + (if Qualifies(e) then [CorrectAnswer(e.pi, e.tSec.value)] else [])
  }

  /** The per-seat accumulators of a run. */
  datatype Tally = Tally(points: map<nat, int>, correctCounts: map<nat, int>, correctTimeSum: map<nat, real>)

  function GetReal(m: map<nat, real>, k: nat): (r: real)
    ensures k in m ==> r == m[k]
    ensures k !in m ==> r == 0.0
  {
    if k in m then m[k] else 0.0
  }

  /** One round of the second loop. */
  function ApplyEntry(t: Tally, e: Entry, awards: map<nat, int>): Tally
  {
    var points := t.points[e.pi := Get0(t.points, e.pi) + Get0(awards, e.pi)];
    if Qualifies(e) then
      Tally(points,
            t.correctCounts[e.pi := Get0(t.correctCounts, e.pi) + 1],
            t.correctTimeSum[e.pi := GetReal(t.correctTimeSum, e.pi) + e.tSec.value])
    else Tally(points, t.correctCounts, t.correctTimeSum)
  }

  /** The second loop over all entries. */
  function ApplyEntries(t: Tally, es: seq<Entry>, awards: map<nat, int>): Tally
  {
    if es == [] then t
    else ApplyEntry(ApplyEntries(t, es[..|es| - 1], awards), es[|es| - 1], awards)
  }

  predicate DistinctEntryPis(es: seq<Entry>)
  {
    forall i, j :: 0 <= i < j < |es| ==> es[i].pi != es[j].pi
  }

  /** With one entry per seat: an entry's seat gains exactly its award, its
      correct count rises by one and its time sum by its time exactly when the
      entry qualifies; seats without an entry are untouched. */
  lemma {:induction false} ApplyEntriesPerSeat(t: Tally, es: seq<Entry>, awards: map<nat, int>, pi: nat)
    requires DistinctEntryPis(es)
    ensures var r := ApplyEntries(t, es, awards);
            (forall k :: 0 <= k < |es| && es[k].pi == pi ==>
               && Get0(r.points, pi) == Get0(t.points, pi) + Get0(awards, pi)
               && Get0(r.correctCounts, pi) == Get0(t.correctCounts, pi) + (if Qualifies(es[k]) then 1 else 0)
               && GetReal(r.correctTimeSum, pi) ==
                  GetReal(t.correctTimeSum, pi) + (if Qualifies(es[k]) then es[k].tSec.value else 0.0))
            && ((forall k :: 0 <= k < |es| ==> es[k].pi != pi) ==>
               && Get0(r.points, pi) == Get0(t.points, pi)
               && Get0(r.correctCounts, pi) == Get0(t.correctCounts, pi)
               && GetReal(r.correctTimeSum, pi) == GetReal(t.correctTimeSum, pi))
  {
    forall k | 0 <= k < |es| && es[k].pi == pi
      ensures var r := ApplyEntries(t, es, awards);
              && Get0(r.points, pi) == Get0(t.points, pi) + Get0(awards, pi)
              && Get0(r.correctCounts, pi) == Get0(t.correctCounts, pi) + (if Qualifies(es[k]) then 1 else 0)
              && GetReal(r.correctTimeSum, pi) ==
                 GetReal(t.correctTimeSum, pi) + (if Qualifies(es[k]) then es[k].tSec.value else 0.0)
    {
      ApplyEntriesOwnSeat(t, es, awards, k);
    }
    if forall k :: 0 <= k < |es| ==> es[k].pi != pi {
      ApplyEntriesOtherSeat(t, es, awards, pi);
    }
  }

  /** A seat no entry names keeps its accumulators. */
  lemma {:induction false} ApplyEntriesOtherSeat(t: Tally, es: seq<Entry>, awards: map<nat, int>, pi: nat)
    requires forall k :: 0 <= k < |es| ==> es[k].pi != pi
    ensures var r := ApplyEntries(t, es, awards);
            && Get0(r.points, pi) == Get0(t.points, pi)
            && Get0(r.correctCounts, pi) == Get0(t.correctCounts, pi)
            && GetReal(r.correctTimeSum, pi) == GetReal(t.correctTimeSum, pi)
  {
    if es != [] {
      var init := es[..|es| - 1];
      forall k | 0 <= k < |init| ensures init[k].pi != pi {
        assert init[k] == es[k];
      }
      ApplyEntriesOtherSeat(t, init, awards, pi);
    }
  }

  /** The seat of entry `k` (one entry per seat) gains its award, and one
      correct answer with its time when the entry qualifies. */
  lemma {:induction false} ApplyEntriesOwnSeat(t: Tally, es: seq<Entry>, awards: map<nat, int>, k: nat)
    requires DistinctEntryPis(es) && k < |es|
    ensures var r := ApplyEntries(t, es, awards);
            var pi := es[k].pi;
            && Get0(r.points, pi) == Get0(t.points, pi) + Get0(awards, pi)
            && Get0(r.correctCounts, pi) == Get0(t.correctCounts, pi) + (if Qualifies(es[k]) then 1 else 0)
            && GetReal(r.correctTimeSum, pi) ==
               GetReal(t.correctTimeSum, pi) + (if Qualifies(es[k]) then es[k].tSec.value else 0.0)
  {
    var init := es[..|es| - 1];
    var pi := es[k].pi;
    if k == |es| - 1 {
      forall j | 0 <= j < |init| ensures init[j].pi != pi {
        assert init[j] == es[j];
      }
      ApplyEntriesOtherSeat(t, init, awards, pi);
    } else {
      assert init[k] == es[k];
      assert DistinctEntryPis(init) by {
        forall i, j | 0 <= i < j < |init| ensures init[i].pi != init[j].pi {
          assert init[i] == es[i] && init[j] == es[j];
        }
      }
      ApplyEntriesOwnSeat(t, init, awards, k);
      assert es[|es| - 1].pi != pi;
    }
  }

  /** Sum of the awards of the entries' seats (one entry per seat). */
  function AwardSum(es: seq<Entry>, awards: map<nat, int>): int
  {
    if es == [] then 0 else Get0(awards, es[0].pi) + AwardSum(es[1..], awards)
  }

  lemma {:induction false} AwardSumUnaffected(es: seq<Entry>, m: map<nat, int>, p: nat, v: int)
    requires forall k :: 0 <= k < |es| ==> es[k].pi != p
    ensures AwardSum(es, m[p := v]) == AwardSum(es, m)
  {
    if es != [] {
      AwardSumUnaffected(es[1..], m, p, v);
    }
  }

  lemma {:induction false} AwardSumUpdate(es: seq<Entry>, m: map<nat, int>, p: nat, v: int)
    requires DistinctEntryPis(es)
    requires forall q :: q in m ==> m[q] >= 0
    requires v >= 0
    ensures AwardSum(es, m[p := v]) <= AwardSum(es, m) + v
  {
    if es != [] {
      assert DistinctEntryPis(es[1..]);
      if es[0].pi == p {
        AwardSumUnaffected(es[1..], m, p, v);
      } else {
        AwardSumUpdate(es[1..], m, p, v);
      }
    }
  }

  lemma {:induction false} AwardSumBound(es: seq<Entry>, sorted: seq<CorrectAnswer>, k: nat)
    requires DistinctEntryPis(es)
    requires k <= |sorted| && k <= |AwardPoints|
    ensures AwardSum(es, Awarded(sorted, k)) <= 6 - (if k == 0 then 6 else if k == 1 then 3 else if k == 2 then 1 else 0)
  {
    if k == 0 {
      AwardSumEmpty(es);
    } else {
      AwardSumBound(es, sorted, k - 1);
      AwardedOnlyFastest(sorted, k - 1);
      AwardSumUpdate(es, Awarded(sorted, k - 1), sorted[k - 1].pi, AwardPoints[k - 1]);
    }
  }

  lemma {:induction false} AwardSumEmpty(es: seq<Entry>)
    ensures AwardSum(es, map[]) == 0
  {
    if es != [] {
      AwardSumEmpty(es[1..]);
    }
  }

  /** With one entry per seat, the points a question adds over all entries
      are at most 3 + 2 + 1. */
  lemma QuestionAwardsAtMostSix(es: seq<Entry>, sorted: seq<CorrectAnswer>)
    requires DistinctEntryPis(es)
    ensures AwardSum(es, Awarded(sorted, Min(|AwardPoints|, |sorted|))) <= 6
  {
    AwardSumBound(es, sorted, Min(|AwardPoints|, |sorted|));
  }

  /** The awards of `applyQuestionResult` for these entries. */
  function AwardsFor(es: seq<Entry>): map<nat, int>
  {
    var sorted := SortByTime(CorrectListOf(es));
    Awarded(sorted, Min(|AwardPoints|, |sorted|))
  }

  // ---------------------------------------------------------------------
  // calcFinalStandings / winLoseFromStandings
  // ---------------------------------------------------------------------

  datatype PlayerInfo = PlayerInfo(name: Option<string>)

  /** `{pi, name, points, correct, timeSum, rank}` */
  datatype Row = Row(pi: nat, name: string, points: int, correct: int, timeSum: real, rank: nat)

  /** `a` is ranked strictly above `b`: more points, then more correct
      answers, then a smaller time sum, then a smaller seat index. */
  predicate RankedAbove(a: Row, b: Row)
  {
    || a.points > b.points
    || (a.points == b.points && a.correct > b.correct)
    || (a.points == b.points && a.correct == b.correct && a.timeSum < b.timeSum)
    || (a.points == b.points && a.correct == b.correct && a.timeSum == b.timeSum && a.pi < b.pi)
  }

  function InsertRow(x: Row, s: seq<Row>): (r: seq<Row>)
    ensures multiset(r) == multiset(s) + multiset{x}
    ensures |r| == |s| + 1
  {
    if s == [] || !RankedAbove(s[0], x) then [x] + s
    else
      assert s == [s[0]] + s[1..];
      [s[0]] + InsertRow(x, s[1..])
  }

  /** `rows.sort(comparator)` */
  function SortRows(s: seq<Row>): (r: seq<Row>)
    ensures multiset(r) == multiset(s)
    ensures |r| == |s|
  {
    if s == [] then []
    else
      assert s == [s[0]] + s[1..];
      InsertRow(s[0], SortRows(s[1..]))
  }

  predicate DistinctRowPis(s: seq<Row>)
  {
    forall i, j :: 0 <= i < j < |s| ==> s[i].pi != s[j].pi
  }

  /** Every row is ranked above every later row. */
  predicate StrictlyRanked(s: seq<Row>)
  {
    forall i, j :: 0 <= i < j < |s| ==> RankedAbove(s[i], s[j])
  }

  /** The tie-break is total on rows of different seats. */
  lemma RankedAboveTotal(a: Row, b: Row)
    requires a.pi != b.pi && !RankedAbove(b, a)
    ensures RankedAbove(a, b)
  {
  }

  lemma RankedAboveTransitive(a: Row, b: Row, c: Row)
    requires RankedAbove(a, b) && RankedAbove(b, c)
    ensures RankedAbove(a, c)
  {
  }

  /** A row that goes in front of strictly ranked rows keeps them ranked. */
  lemma ConsRanked(x: Row, s: seq<Row>)
    requires StrictlyRanked(s) && DistinctRowPis(s)
    requires forall e :: e in s ==> e.pi != x.pi
    requires s == [] || !RankedAbove(s[0], x)
    ensures StrictlyRanked([x] + s) && DistinctRowPis([x] + s)
  {
    var r := [x] + s;
    if s != [] {
      RankedAboveTotal(x, s[0]);
    }
    forall i, j | 0 <= i < j < |r|
      ensures RankedAbove(r[i], r[j]) && r[i].pi != r[j].pi
    {
      assert r[j] == s[j - 1];
      if i == 0 {
        assert s[j - 1] in s;
        if j > 1 {
          RankedAboveTransitive(x, s[0], s[j - 1]);
        }
      } else {
        assert r[i] == s[i - 1];
      }
    }
  }

  /** A head ranked above every row of a strictly ranked tail keeps it
      ranked. */
  lemma HeadRanked(h: Row, rest: seq<Row>)
    requires StrictlyRanked(rest) && DistinctRowPis(rest)
    requires forall e :: e in rest ==> RankedAbove(h, e) && h.pi != e.pi
    ensures StrictlyRanked([h] + rest) && DistinctRowPis([h] + rest)
  {
    var r := [h] + rest;
    forall i, j | 0 <= i < j < |r|
      ensures RankedAbove(r[i], r[j]) && r[i].pi != r[j].pi
    {
      assert r[j] == rest[j - 1];
      if i == 0 {
        assert rest[j - 1] in rest;
      } else {
        assert r[i] == rest[i - 1];
      }
    }
  }

  lemma {:induction false} InsertRowRanked(x: Row, s: seq<Row>)
    requires StrictlyRanked(s) && DistinctRowPis(s)
    requires forall e :: e in s ==> e.pi != x.pi
    ensures StrictlyRanked(InsertRow(x, s)) && DistinctRowPis(InsertRow(x, s))
  {
    if s == [] || !RankedAbove(s[0], x) {
      ConsRanked(x, s);
    } else {
      var tail := s[1..];
      assert StrictlyRanked(tail) && DistinctRowPis(tail) by {
        assert forall i :: 0 <= i < |tail| ==> tail[i] == s[i + 1];
      }
      forall e | e in tail
        ensures e.pi != x.pi && RankedAbove(s[0], e) && s[0].pi != e.pi
      {
        var k :| 0 <= k < |tail| && tail[k] == e;
        assert s[k + 1] == e;
      }
      InsertRowRanked(x, tail);
      var rest := InsertRow(x, tail);
      forall e | e in rest
        ensures RankedAbove(s[0], e) && s[0].pi != e.pi
      {
        assert e in multiset(tail) + multiset{x};
      }
      HeadRanked(s[0], rest);
    }
  }

  lemma {:induction false} SortRowsRanked(s: seq<Row>)
    requires DistinctRowPis(s)
    ensures StrictlyRanked(SortRows(s)) && DistinctRowPis(SortRows(s))
  {
    if s != [] {
      assert DistinctRowPis(s[1..]);
      SortRowsRanked(s[1..]);
      forall e | e in SortRows(s[1..])
        ensures e.pi != s[0].pi
      {
        assert e in multiset(s[1..]);
      }
      InsertRowRanked(s[0], SortRows(s[1..]));
    }
  }

  /** `run.players.map((p, pi) => ({pi, name, points, correct, timeSum}))` */
  function BuildRows(players: seq<Option<PlayerInfo>>, t: Tally): (rows: seq<Row>)
    ensures |rows| == |players|
    ensures forall i :: 0 <= i < |rows| ==> rows[i].pi == i
  {
    seq(|players|, i requires 0 <= i < |players| =>
      Row(i,
          if players[i].Some? && players[i].value.name.Some? then players[i].value.name.value else "",
          Get0(t.points, i), Get0(t.correctCounts, i), GetReal(t.correctTimeSum, i), 0))
  }

  /** A row carries the tallies of its own seat. */
  predicate RowFromTally(r: Row, t: Tally)
  {
    r.points == Get0(t.points, r.pi) && r.correct == Get0(t.correctCounts, r.pi) &&
    r.timeSum == GetReal(t.correctTimeSum, r.pi)
  }

  /** `rows.forEach((r, i) => (r.rank = i + 1))` */
  function WithRanks(rows: seq<Row>): (r: seq<Row>)
    ensures |r| == |rows|
    ensures forall i :: 0 <= i < |r| ==> r[i] == rows[i].(rank := i + 1)
  {
    seq(|rows|, i requires 0 <= i < |rows| => rows[i].(rank := i + 1))
  }

  /** The standings of a run (before the rank loop fills the ranks). */
  function SortedRows(players: seq<Option<PlayerInfo>>, t: Tally): seq<Row>
  {
    SortRows(BuildRows(players, t))
  }

  /** Seat `pi` has a row in `s`. */
  predicate SeatListed(s: seq<Row>, pi: nat)
  {
    exists i :: 0 <= i < |s| && s[i].pi == pi
  }

  lemma SortedRowsRanked(players: seq<Option<PlayerInfo>>, t: Tally)
    ensures StrictlyRanked(SortedRows(players, t)) && DistinctRowPis(SortedRows(players, t))
  {
    var rows := BuildRows(players, t);
    assert DistinctRowPis(rows);
    SortRowsRanked(rows);
  }

  lemma SortedRowsFromTally(players: seq<Option<PlayerInfo>>, t: Tally)
    ensures forall i :: 0 <= i < |SortedRows(players, t)| ==>
              SortedRows(players, t)[i].pi < |players| && RowFromTally(SortedRows(players, t)[i], t)
  {
    var rows := BuildRows(players, t);
    var s := SortRows(rows);
    forall i | 0 <= i < |s|
      ensures s[i].pi < |players| && RowFromTally(s[i], t)
    {
      assert s[i] in multiset(rows);
      var j :| 0 <= j < |rows| && rows[j] == s[i];
    }
  }

  lemma SortedRowsCoverSeats(players: seq<Option<PlayerInfo>>, t: Tally)
    ensures forall pi: nat :: pi < |players| ==> SeatListed(SortedRows(players, t), pi)
  {
    var rows := BuildRows(players, t);
    var s := SortRows(rows);
    forall pi: nat | pi < |players|
      ensures SeatListed(s, pi)
    {
      assert rows[pi] in multiset(s);
      var i :| 0 <= i < |s| && s[i] == rows[pi];
    }
  }

  /** The coin map built from ranked rows; a repeated seat keeps its last row. */
  function CoinMapOf(standings: seq<Row>): map<nat, int>
  {
    if standings == [] then map[]
    else
      var r := standings[|standings| - 1];
      CoinMapOf(standings[..|standings| - 1])[r.pi := CoinRewardTable(r.rank)]
  }

  lemma {:induction false} CoinMapOfDistinct(standings: seq<Row>)
    requires DistinctRowPis(standings)
    ensures forall pi :: pi in CoinMapOf(standings) <==> exists i :: 0 <= i < |standings| && standings[i].pi == pi
    ensures forall i :: 0 <= i < |standings| ==>
              CoinMapOf(standings)[standings[i].pi] == CoinRewardTable(standings[i].rank)
  {
    if standings != [] {
      var init := standings[..|standings| - 1];
      assert DistinctRowPis(init);
      CoinMapOfDistinct(init);
      forall i | 0 <= i < |init| ensures init[i] == standings[i] { }
    }
  }

  datatype Outcome = Win | Lose

  /** The win/lose map built from the standings; only rank 1 wins. */
  function WinLoseOf(standings: seq<Row>): map<nat, Outcome>
  {
    if standings == [] then map[]
    else
      var r := standings[|standings| - 1];
      WinLoseOf(standings[..|standings| - 1])[r.pi := if r.rank == 1 then Win else Lose]
  }

  lemma {:induction false} WinLoseOfDistinct(standings: seq<Row>)
    requires DistinctRowPis(standings)
    ensures forall pi :: pi in WinLoseOf(standings) <==> exists i :: 0 <= i < |standings| && standings[i].pi == pi
    ensures forall i :: 0 <= i < |standings| ==>
              (WinLoseOf(standings)[standings[i].pi] == Win <==> standings[i].rank == 1)
  {
    if standings != [] {
      var init := standings[..|standings| - 1];
      assert DistinctRowPis(init);
      WinLoseOfDistinct(init);
      forall i | 0 <= i < |init| ensures init[i] == standings[i] { }
    }
  }

  /** `winLoseFromStandings(standings)` */
  method WinLoseFromStandings(standings: seq<Row>) returns (winLoseMap: map<nat, Outcome>)
    ensures winLoseMap == WinLoseOf(standings)
    ensures DistinctRowPis(standings) ==>
              (forall pi :: pi in winLoseMap <==> exists i :: 0 <= i < |standings| && standings[i].pi == pi) &&
              forall i :: 0 <= i < |standings| ==>
                (winLoseMap[standings[i].pi] == Win <==> standings[i].rank == 1)
  {
    winLoseMap := map[];
    for i := 0 to |standings|
      invariant winLoseMap == WinLoseOf(standings[..i])
    {
      assert standings[..i + 1][..i] == standings[..i];
      winLoseMap := winLoseMap[standings[i].pi := if standings[i].rank == 1 then Win else Lose];
    }
    assert standings[..|standings|] == standings;
    if DistinctRowPis(standings) {
      WinLoseOfDistinct(standings);
    }
  }

  /** On ranked standings (ranks 1..n, one row per seat) exactly the first
      row's seat wins. */
  lemma ExactlyOneWinner(standings: seq<Row>)
    requires DistinctRowPis(standings)
    requires forall i :: 0 <= i < |standings| ==> standings[i].rank == i + 1
    ensures forall i :: 0 <= i < |standings| ==>
              standings[i].pi in WinLoseOf(standings) &&
              (WinLoseOf(standings)[standings[i].pi] == Win <==> i == 0)
  {
    WinLoseOfDistinct(standings);
  }

  /** A match's run as the backend sees it. */
  class BattleRun {
    var players: seq<Option<PlayerInfo>>
    var points: map<nat, int>
    var correctCounts: map<nat, int>
    var correctTimeSum: map<nat, real>
    var answers: seq<AnswerRecord>

    function CurrentTally(): Tally
      reads this
    {
      Tally(points, correctCounts, correctTimeSum)
    }

    /** `applyQuestionResult(run, questionResult)`: ranks the qualifying
        entries by speed, adds each entry's award and, for qualifying entries,
        one correct answer and its time; appends one record to `answers`. */
    method ApplyQuestionResult(qr: QuestionResult)
      modifies this`points, this`correctCounts, this`correctTimeSum, this`answers
      ensures CurrentTally() == ApplyEntries(old(CurrentTally()), qr.entries, AwardsFor(qr.entries))
      ensures answers == old(answers) +
                [AnswerRecord(qr.qid, qr.correctIdx, qr.entries, qr.endReason, AwardsFor(qr.entries))]
    {
      var correctList := CollectCorrect(qr.entries);
      var sorted, pointsMap := AwardPointsBySpeed(correctList);
      AddAwards(qr.entries, pointsMap);
      answers := answers + [AnswerRecord(qr.qid, qr.correctIdx, qr.entries, qr.endReason, pointsMap)];
    }

    /** The second loop of `applyQuestionResult`. */
    method AddAwards(es: seq<Entry>, pointsMap: map<nat, int>)
      modifies this`points, this`correctCounts, this`correctTimeSum
      ensures CurrentTally() == ApplyEntries(old(CurrentTally()), es, pointsMap)
    {
      ghost var t0 := CurrentTally();
      for i := 0 to |es|
        invariant CurrentTally() == ApplyEntries(t0, es[..i], pointsMap)
      {
        assert es[..i + 1][..i] == es[..i];
        AddAward(es[i], pointsMap);
      }
      assert es[..|es|] == es;
    }

    /** One round of the second loop. */
    method AddAward(e: Entry, pointsMap: map<nat, int>)
      modifies this`points, this`correctCounts, this`correctTimeSum
      ensures CurrentTally() == ApplyEntry(old(CurrentTally()), e, pointsMap)
    {
      points := points[e.pi := Get0(points, e.pi) + Get0(pointsMap, e.pi)];
      if Qualifies(e) {
        correctCounts := correctCounts[e.pi := Get0(correctCounts, e.pi) + 1];
        correctTimeSum := correctTimeSum[e.pi := GetReal(correctTimeSum, e.pi) + e.tSec.value];
      }
    }

    /** `calcFinalStandings(run)` on this run. */
    method CalcFinalStandings() returns (standings: seq<Row>, coinRewardMap: map<nat, int>)
      ensures |standings| == |players|
      ensures forall i :: 0 <= i < |standings| ==>
                standings[i].rank == i + 1 && standings[i].pi < |players| &&
                RowFromTally(standings[i], CurrentTally())
      ensures DistinctRowPis(standings) && StrictlyRanked(standings)
      ensures forall pi: nat :: pi in coinRewardMap <==> pi < |players|
      ensures forall i :: 0 <= i < |standings| ==>
                coinRewardMap[standings[i].pi] == CoinRewardTable(i + 1)
    {
      standings, coinRewardMap := FinalStandings(players, CurrentTally());
    }
  }

  /** `calcFinalStandings`: one row per player, ordered by points (desc),
      correct answers (desc), time sum (asc), seat (asc), ranked 1..n, with
      each seat's coin reward by rank. */
  method FinalStandings(players: seq<Option<PlayerInfo>>, t: Tally)
    returns (standings: seq<Row>, coinRewardMap: map<nat, int>)
    ensures |standings| == |players|
    ensures forall i :: 0 <= i < |standings| ==>
              standings[i].rank == i + 1 && standings[i].pi < |players| && RowFromTally(standings[i], t)
    ensures DistinctRowPis(standings) && StrictlyRanked(standings)
    ensures forall pi: nat :: pi in coinRewardMap <==> pi < |players|
    ensures forall i :: 0 <= i < |standings| ==>
              coinRewardMap[standings[i].pi] == CoinRewardTable(i + 1)
  {
    var rows := SortedRows(players, t);
    standings := AssignRanks(rows);
    coinRewardMap := CoinRewards(standings);
    FinalStandingsFacts(players, t);
  }

  /** What `calcFinalStandings` promises, about the ranked rows and their
      coin map. */
  lemma FinalStandingsFacts(players: seq<Option<PlayerInfo>>, t: Tally)
    ensures var standings := WithRanks(SortedRows(players, t));
            var coinRewardMap := CoinMapOf(standings);
            && |standings| == |players|
            && (forall i :: 0 <= i < |standings| ==>
                  standings[i].rank == i + 1 && standings[i].pi < |players| && RowFromTally(standings[i], t))
            && DistinctRowPis(standings) && StrictlyRanked(standings)
            && (forall pi: nat :: pi in coinRewardMap <==> pi < |players|)
            && (forall i :: 0 <= i < |standings| ==> coinRewardMap[standings[i].pi] == CoinRewardTable(i + 1))
  {
    var standings := WithRanks(SortedRows(players, t));
    StandingsFacts(players, t);
    CoinMapOfDistinct(standings);
    CoinKeysAreSeats(standings, CoinMapOf(standings), |players|);
  }

  /** The ranked rows: one per seat, ranks 1..n in order, strictly ranked,
      distinct seats, each with its own tallies. */
  lemma StandingsFacts(players: seq<Option<PlayerInfo>>, t: Tally)
    ensures var standings := WithRanks(SortedRows(players, t));
            && |standings| == |players|
            && (forall i :: 0 <= i < |standings| ==>
                  standings[i].rank == i + 1 && standings[i].pi < |players| && RowFromTally(standings[i], t))
            && DistinctRowPis(standings) && StrictlyRanked(standings)
            && (forall pi: nat :: pi < |players| ==> SeatListed(standings, pi))
  {
    var rows := SortedRows(players, t);
    var standings := WithRanks(rows);
    SortedRowsRanked(players, t);
    SortedRowsFromTally(players, t);
    SortedRowsCoverSeats(players, t);
    forall pi: nat | pi < |players| ensures SeatListed(standings, pi) {
      assert SeatListed(rows, pi);
      var i :| 0 <= i < |rows| && rows[i].pi == pi;
      assert standings[i].pi == pi;
    }
  }

  lemma CoinKeysAreSeats(standings: seq<Row>, coinRewardMap: map<nat, int>, n: nat)
    requires |standings| == n
    requires forall i :: 0 <= i < n ==> standings[i].pi < n
    requires forall pi: nat :: pi < n ==> SeatListed(standings, pi)
    requires forall pi :: pi in coinRewardMap <==> exists i :: 0 <= i < n && standings[i].pi == pi
    ensures forall pi: nat :: pi in coinRewardMap <==> pi < n
  {
    forall pi: nat
      ensures pi in coinRewardMap <==> pi < n
    {
      if pi < n {
        assert SeatListed(standings, pi);
      }
      if pi in coinRewardMap {
        var i :| 0 <= i < n && standings[i].pi == pi;
      }
    }
  }

  /** The first loop of `applyQuestionResult`. */
  method CollectCorrect(es: seq<Entry>) returns (correctList: seq<CorrectAnswer>)
    ensures correctList == CorrectListOf(es)
  {
    correctList := [];
    for i := 0 to |es|
      invariant correctList == CorrectListOf(es[..i])
    {
      assert es[..i + 1][..i] == es[..i];
      if Qualifies(es[i]) {
        correctList := correctList + [CorrectAnswer(es[i].pi, es[i].tSec.value)];
      }
    }
    assert es[..|es|] == es;
  }

  /** The rank loop of `calcFinalStandings`: the order, seats and tallies are
      kept and the ranks become 1..n. */
  method AssignRanks(rows: seq<Row>) returns (standings: seq<Row>)
    ensures standings == WithRanks(rows)
    ensures StrictlyRanked(rows) ==> StrictlyRanked(standings)
    ensures DistinctRowPis(rows) ==> DistinctRowPis(standings)
  {
    standings := [];
    for i := 0 to |rows|
      invariant standings == WithRanks(rows[..i])
    {
      standings := standings + [rows[i].(rank := i + 1)];
    }
    assert rows[..|rows|] == rows;
  }

  /** The coin loop of `calcFinalStandings`. */
  method CoinRewards(standings: seq<Row>) returns (coinRewardMap: map<nat, int>)
    ensures coinRewardMap == CoinMapOf(standings)
  {
    coinRewardMap := map[];
    for i := 0 to |standings|
      invariant coinRewardMap == CoinMapOf(standings[..i])
    {
      assert standings[..i + 1][..i] == standings[..i];
      coinRewardMap := coinRewardMap[standings[i].pi := CoinRewardTable(standings[i].rank)];
    }
    assert standings[..|standings|] == standings;
  }
}

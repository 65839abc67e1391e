/** The battle result screen: which seat is the player's, its rank and coin
    reward, and the one-time application of the result to the save (coins,
    the win/loss record of the cpu or pvp bucket, title unlocks). */
module BattleResult {
  import opened Common
  import opened SaveModel
  import opened TitleManager
  import opened BattleLogic

  /** `safe(n)`: `Number(n)` when it is a number, otherwise 0. */
  function Safe(v: Option<Scalar>): (x: real)
    ensures v.Some? && v.value.SNum? ==> x == v.value.n
    ensures v.None? || v == Some(SNull) ==> x == 0.0
  {
    GetOr(ToNumber(v), 0.0)
  }

  // ---------------------------------------------------------------------
  // resolveTitleJa
  // ---------------------------------------------------------------------

  /** A title row as the battle screens read it: the id fields
      (`id ?? title_id ?? titleId ?? key ?? code`) and the name fields
      (`name ?? title_name ?? titleName`, then `title_name_ja`, `name_ja`). */
  datatype TitleRec = TitleRec(id: Option<string>, titleIdField: Option<string>, titleIdCamel: Option<string>,
                               key: Option<string>, code: Option<string>,
                               name: Option<string>, titleName: Option<string>, titleNameCamel: Option<string>,
                               titleNameJa: Option<string>, nameJa: Option<string>)

  function RecId(t: TitleRec): string
  {
    GetOr(Or(t.id, Or(t.titleIdField, Or(t.titleIdCamel, Or(t.key, t.code)))), "")
  }

  function RecName(t: TitleRec): string
  {
    GetOr(Or(t.name, Or(t.titleName, t.titleNameCamel)), "")
  }

  /** The displayed name of a hit: the first present name field. */
  function DisplayName(t: TitleRec): Option<string>
  {
    Or(t.name, Or(t.titleName, Or(t.titleNameCamel, Or(t.titleNameJa, t.nameJa))))
  }

  predicate Matches(t: TitleRec, v: string)
  {
    RecId(t) == v || RecName(t) == v
  }

  function FindRec(list: seq<TitleRec>, v: string): (r: Option<nat>)
    ensures r.Some? ==> r.value < |list| && Matches(list[r.value], v) &&
                        forall j :: 0 <= j < r.value ==> !Matches(list[j], v)
    ensures r.None? ==> forall j :: 0 <= j < |list| ==> !Matches(list[j], v)
  {
    if list == [] then None
    else if Matches(list[0], v) then Some(0)
    else
      var r := FindRec(list[1..], v);
      if r.Some? then Some(r.value + 1) else None
  }

  /** `resolveTitleJa(masters, maybeIdOrName)`: the name of the first title
      whose id or name is the given text; the text itself (or "—" when there
      is none) when no title matches or the match has no non-empty name. */
  function ResolveTitleJa(list: Option<seq<TitleRec>>, maybeIdOrName: Option<string>): (r: string)
    ensures var v := GetOr(maybeIdOrName, "—");
            r == v ||
            (list.Some? && exists j :: 0 <= j < |list.value| && Matches(list.value[j], v) &&
                                       DisplayName(list.value[j]) == Some(r) && r != "")
    ensures var v := GetOr(maybeIdOrName, "—");
            list.None? || (forall j :: 0 <= j < |list.value| ==> !Matches(list.value[j], v)) ==> r == v
  {
    var v := GetOr(maybeIdOrName, "—");
    if list.None? then v
    else
      var hit := FindRec(list.value, v);
      if hit.None? then v
      else
        var name := DisplayName(list.value[hit.value]);
        if name.Some? && name.value != "" then name.value else v
  }

  /** The first matching title with a non-empty `name` shows that name. */
  lemma ResolveTitleJaFirstName(list: seq<TitleRec>, v: string, j: nat)
    requires j < |list| && Matches(list[j], v)
    requires forall i :: 0 <= i < j ==> !Matches(list[i], v)
    requires list[j].name.Some? && list[j].name.value != ""
    ensures ResolveTitleJa(Some(list), Some(v)) == list[j].name.value
  {
    var hit := FindRec(list, v);
    assert hit == Some(j);
  }

  // ---------------------------------------------------------------------
  // Rank and reward
  // ---------------------------------------------------------------------

  /** `coinRewardByRank(rank)` */
  function CoinRewardByRank(rank: int): (coins: int)
    ensures coins == 30 <==> rank == 1
    ensures coins == 20 <==> rank == 2
    ensures coins == 10 <==> rank == 3
    ensures rank !in {1, 2, 3} ==> coins == 0
  {
    if rank == 1 then 30 else if rank == 2 then 20 else if rank == 3 then 10 else 0
  }

  /** The screen's reward table and the server's are the same table. */
  lemma CoinRewardTablesAgree(rank: int)
    ensures CoinRewardByRank(rank) == CoinRewardTable(rank)
  {
    if rank !in CoinRewardByRankTable {
      assert rank != 1 && rank != 2 && rank != 3;
    }
  }

  /** `myPi`: the seat the client id maps to online, seat 0 otherwise. */
  function MyPi(isOnline: bool, myClientId: Option<string>, clientIdToPi: map<string, nat>): (pi: nat)
    ensures pi != 0 ==> isOnline && myClientId.Some? && myClientId.value in clientIdToPi &&
                        clientIdToPi[myClientId.value] == pi
    ensures isOnline && myClientId.Some? && myClientId.value != "" && myClientId.value in clientIdToPi ==>
              pi == clientIdToPi[myClientId.value]
  {
    if isOnline && myClientId.Some? && myClientId.value != "" && myClientId.value in clientIdToPi
    then clientIdToPi[myClientId.value] else 0
  }

  /** `myRow?.rank ?? 99`: the rank of the first row of the seat. */
  function MyRank(rows: seq<Row>, pi: nat): (rank: int)
    ensures (forall i :: 0 <= i < |rows| ==> rows[i].pi != pi) ==> rank == 99
    ensures (exists i :: 0 <= i < |rows| && rows[i].pi == pi) ==>
              exists i :: 0 <= i < |rows| && rows[i].pi == pi && rank == rows[i].rank &&
                          forall j :: 0 <= j < i ==> rows[j].pi != pi
  {
    if rows == [] then 99
    else if rows[0].pi == pi then rows[0].rank
    else
      var r := MyRank(rows[1..], pi);
      assert forall i :: 0 <= i < |rows| - 1 ==> rows[1..][i] == rows[i + 1];
      r
  }

  /** On the final standings (ranks 1, 2, … in order, one row per seat) a
      seat's rank is its position plus one, so only the top seat wins and
      its reward is the table's first prize. */
  lemma {:induction false} MyRankOnStandings(rows: seq<Row>, i: nat)
    requires i < |rows|
    requires forall k :: 0 <= k < |rows| ==> rows[k].rank == k + 1
    requires DistinctRowPis(rows)
    ensures MyRank(rows, rows[i].pi) == i + 1
    ensures CoinRewardByRank(MyRank(rows, rows[i].pi)) == CoinRewardTable(i + 1)
    ensures MyRank(rows, rows[i].pi) == 1 <==> i == 0
  {
    var rank := MyRank(rows, rows[i].pi);
    var k :| 0 <= k < |rows| && rows[k].pi == rows[i].pi && rank == rows[k].rank &&
             forall j :: 0 <= j < k ==> rows[j].pi != rows[i].pi;
    assert k == i;
    CoinRewardTablesAgree(i + 1);
  }

  /** The rows the table shows: at most as many as there are active seats
      (at most four). */
  function VisibleRows(rows: seq<Row>, playerCount: nat): (r: seq<Row>)
    ensures |r| == Min(Min(4, playerCount), |rows|)
    ensures r <= rows
  {
    rows[..Min(Min(4, playerCount), |rows|)]
  }

  // ---------------------------------------------------------------------
  // Applying the result to the save
  // ---------------------------------------------------------------------

  /** `save.battle` with each missing part created as zeros. */
  function InitBattle(b: Option<BattleRecord>): (r: BattleRecord)
    ensures r.cpu.Some? && r.pvp.Some?
    ensures b.Some? && b.value.cpu.Some? ==> r.cpu == b.value.cpu
    ensures b.Some? && b.value.pvp.Some? ==> r.pvp == b.value.pvp
  {
    if b.None? then BattleRecord(Some(ZeroWinLoss), Some(ZeroWinLoss))
    else BattleRecord(Or(b.value.cpu, Some(ZeroWinLoss)), Or(b.value.pvp, Some(ZeroWinLoss)))
  }

  /** One more win (rank 1) or one more loss (any other rank). */
  function RecordOutcome(wl: WinLoss, rank: int): WinLoss
  {
    if rank == 1 then wl.(wins := Some(SNum(Safe(wl.wins) + 1.0)))
    else wl.(losses := Some(SNum(Safe(wl.losses) + 1.0)))
  }

  /** The bucket the result goes to (`pvp` online, `cpu` otherwise),
      updated; the other bucket stays as it is. */
  function ApplyOutcome(b: BattleRecord, isOnline: bool, rank: int): (r: BattleRecord)
    requires b.cpu.Some? && b.pvp.Some?
    ensures r.cpu.Some? && r.pvp.Some?
  {
    if isOnline then b.(pvp := Some(RecordOutcome(b.pvp.value, rank)))
    else b.(cpu := Some(RecordOutcome(b.cpu.value, rank)))
  }

  /** A result adds exactly one game to its bucket: a win when the rank is
      1, a loss otherwise; the other bucket is untouched. */
  lemma ApplyOutcomeCountsOneGame(b: BattleRecord, isOnline: bool, rank: int)
    requires b.cpu.Some? && b.pvp.Some?
    ensures var r := ApplyOutcome(b, isOnline, rank);
            var before := if isOnline then b.pvp.value else b.cpu.value;
            var after := if isOnline then r.pvp.value else r.cpu.value;
            && Safe(after.wins) + Safe(after.losses) == Safe(before.wins) + Safe(before.losses) + 1.0
            && (Safe(after.wins) == Safe(before.wins) + 1.0 <==> rank == 1)
            && (isOnline ==> r.cpu == b.cpu)
            && (!isOnline ==> r.pvp == b.pvp)
  {
  }

  /** The run the result screen reads. */
  class ResultRun {
    const mode: string
    const playerCount: nat
    const myClientId: Option<string>
    const clientIdToPi: map<string, nat>
    /** `run.result`; `None` when there is no result yet. */
    const rows: Option<seq<Row>>
    var resultApplied: bool

    constructor (mode: string, playerCount: nat, myClientId: Option<string>,
                 clientIdToPi: map<string, nat>, rows: Option<seq<Row>>)
      ensures this.mode == mode && this.playerCount == playerCount && this.myClientId == myClientId
      ensures this.clientIdToPi == clientIdToPi && this.rows == rows && !resultApplied
    {
      this.mode := mode;
      this.playerCount := playerCount;
      this.myClientId := myClientId;
      this.clientIdToPi := clientIdToPi;
      this.rows := rows;
      resultApplied := false;
    }

    predicate IsOnline()
    {
      mode == "battle_online_local"
    }

    /** There is a battle result to show. */
    predicate HasResult()
    {
      (mode == "battle_cpu" || mode == "battle_online_local") && rows.Some?
    }

    /** The rank of the player's own seat. */
    function Rank(): int
      requires HasResult()
    {
      MyRank(rows.value, MyPi(IsOnline(), myClientId, clientIdToPi))
    }
  }

  /** The one-time application: the rank's coins are added, the game is
      counted in the mode's bucket, titles are unlocked and the save is
      stamped. */
  method ApplyResult(save: Save, titles: seq<Title>, stageList: Option<seq<StageDef>>,
                     isOnline: bool, rank: int, now: string)
    requires save.coins.Some? && save.battle.Some?
    requires save.battle.value.cpu.Some? && save.battle.value.pvp.Some?
    modifies save`coins, save`battle, save`titles, save`lastPlayedAt
    ensures save.coins == Some(old(save.coins).value + CoinRewardByRank(rank))
    ensures save.battle == Some(ApplyOutcome(old(save.battle).value, isOnline, rank))
    ensures Satisfied(titles, stageList, ViewOf(save)) <= (set id | id in UnlockedIdsOf(save.titles))
    ensures forall id :: id in UnlockedIdsOf(old(save.titles)) ==> id in UnlockedIdsOf(save.titles)
    ensures save.titles == Some(TitlesAfterUnlock(titles, stageList, ViewOf(save), old(save.titles)))
    ensures save.lastPlayedAt == now
  {
    save.coins := Some(save.coins.value + CoinRewardByRank(rank));
    save.battle := Some(ApplyOutcome(save.battle.value, isOnline, rank));
    var _ := UnlockTitlesIfAny(titles, stageList, save);
    save.SaveNow(now);
  }

  /** `renderBattleResult`: without a battle result nothing changes. With
      one, the missing battle buckets and coins are created; the first time
      only, the reward is added, the bucket records a win or a loss, titles
      are unlocked, the save is stamped and the run is marked applied. */
  method RenderBattleResult(run: ResultRun?, save: Save, titles: seq<Title>,
                            stageList: Option<seq<StageDef>>, now: string)
    returns (shown: bool)
    modifies save`coins, save`battle, save`titles, save`lastPlayedAt, run
    ensures shown <==> run != null && run.HasResult()
    ensures !shown ==> save.coins == old(save.coins) && save.battle == old(save.battle) &&
                       save.titles == old(save.titles) && save.lastPlayedAt == old(save.lastPlayedAt)
    ensures !shown && run != null ==> run.resultApplied == old(run.resultApplied)
    ensures shown && old(run.resultApplied) ==>
              && run.resultApplied
              && save.coins == Some(CoinsOf(old(save.coins)))
              && save.battle == Some(InitBattle(old(save.battle)))
              && save.titles == old(save.titles) && save.lastPlayedAt == old(save.lastPlayedAt)
    ensures shown && !old(run.resultApplied) ==>
              && run.resultApplied
              && save.coins == Some(CoinsOf(old(save.coins)) + CoinRewardByRank(run.Rank()))
              && save.battle == Some(ApplyOutcome(InitBattle(old(save.battle)), run.IsOnline(), run.Rank()))
              && Satisfied(titles, stageList, ViewOf(save)) <= (set id | id in UnlockedIdsOf(save.titles))
              && (forall id :: id in UnlockedIdsOf(old(save.titles)) ==> id in UnlockedIdsOf(save.titles))
              && save.titles == Some(TitlesAfterUnlock(titles, stageList, ViewOf(save), old(save.titles)))
              && save.lastPlayedAt == now
  {
    if run == null || !run.HasResult() {
      return false;
    }
    shown := true;
    save.battle := Some(InitBattle(save.battle));
    if save.coins.None? {
      save.coins := Some(0);
    }
    var isOnline := run.IsOnline();
    var myPi := MyPi(isOnline, run.myClientId, run.clientIdToPi);
    var myRank := MyRank(run.rows.value, myPi);
    if !run.resultApplied {
      ApplyResult(save, titles, stageList, isOnline, myRank, now);
      run.resultApplied := true;
    }
  }
}

/** Title unlocking: the unlock conditions over the save, and adding every
    newly satisfied title to the save's unlocked list (auto-equipping the
    first one when nothing is equipped). */
module TitleManager {
  import opened Common
  import opened SaveModel

  /** A title master row; `title_id ?? id` is its id. */
  datatype Title = Title(titleId: Option<string>, id: Option<string>,
                         conditionType: Option<string>, conditionValue: Option<Scalar>)

  /** A stage master row (only its id matters here). */
  datatype StageDef = StageDef(id: string)

  /** `t?.title_id ?? t?.id` */
  function TitleIdOf(t: Title): (r: Option<string>)
    ensures t.titleId.Some? ==> r == t.titleId
    ensures t.titleId.None? ==> r == t.id
  {
    Or(t.titleId, t.id)
  }

  // ---------------------------------------------------------------------
  // parseModeScoreValue
  // ---------------------------------------------------------------------

  datatype ModeScore = ModeScore(mode: string, score: real)

  /** `parseModeScoreValue(v)`: "mode:score" with a non-empty mode and a
      numeric score; text after a second ':' is ignored. A non-string value
      has no ':' once converted, so its score is NaN. */
  function ParseModeScoreValue(v: Option<Scalar>): (r: Option<ModeScore>)
    ensures r.Some? ==> r.value.mode != "" && ':' !in r.value.mode
  {
    if v.None? || !v.value.SStr? then None
    else
      var parts := Split(v.value.s, ':');
      var mode := parts[0];
      var score := if |parts| > 1 then ParseNumber(parts[1]) else None;
      SplitPartsFree(v.value.s, ':');
      if mode == "" || score.None? then None
      else Some(ModeScore(mode, score.value))
  }

  /** "mode:n" reads back as mode and n, whatever follows a second ':'. */
  lemma ParseModeScoreRoundTrip(mode: string, n: nat, rest: string)
    requires mode != "" && ':' !in mode
    ensures ParseModeScoreValue(Some(SStr(mode + ":" + NatToString(n)))) == Some(ModeScore(mode, n as real))
    ensures ParseModeScoreValue(Some(SStr(mode + ":" + NatToString(n) + ":" + rest))) == Some(ModeScore(mode, n as real))
  {
    ParseModeScoreExact(mode, n);
    ParseModeScoreWithRest(mode, n, rest);
  }

  lemma DigitsHaveNoColon(n: nat)
    ensures ':' !in NatToString(n)
  {
    var digits := NatToString(n);
    forall i | 0 <= i < |digits| ensures digits[i] != ':' {
      assert IsDigit(digits[i]);
    }
  }

  lemma ParseModeScoreExact(mode: string, n: nat)
    requires mode != "" && ':' !in mode
    ensures ParseModeScoreValue(Some(SStr(mode + ":" + NatToString(n)))) == Some(ModeScore(mode, n as real))
  {
    var digits := NatToString(n);
    DigitsHaveNoColon(n);
    SplitPrefix(mode, digits, ':');
    SplitNoSep(digits, ':');
    assert mode + ":" + digits == mode + [':'] + digits;
    ParseNumberRoundTrip(n);
  }

  lemma ParseModeScoreWithRest(mode: string, n: nat, rest: string)
    requires mode != "" && ':' !in mode
    ensures ParseModeScoreValue(Some(SStr(mode + ":" + NatToString(n) + ":" + rest))) == Some(ModeScore(mode, n as real))
  {
    var digits := NatToString(n);
    DigitsHaveNoColon(n);
    SplitPrefix(mode, digits + [':'] + rest, ':');
    SplitPrefix(digits, rest, ':');
    assert mode + ":" + digits + ":" + rest == mode + [':'] + (digits + [':'] + rest);
    ParseNumberRoundTrip(n);
  }

  /** No mode (a leading ':') or no ':' at all means no condition value,
      while an empty score after the ':' reads as 0 (`Number("")`). */
  lemma ParseModeScoreRejects(s: string)
    requires ':' !in s
    ensures ParseModeScoreValue(Some(SStr(s))).None?
    ensures ParseModeScoreValue(Some(SStr(":" + s))).None?
    ensures s != "" ==> ParseModeScoreValue(Some(SStr(s + ":"))) == Some(ModeScore(s, 0.0))
  {
    SplitNoSep(s, ':');
    SplitPrefix("", s, ':');
    assert ":" + s == "" + [':'] + s;
    SplitPrefix(s, "", ':');
    SplitNoSep("", ':');
    assert s + ":" == s + [':'] + "";
  }

  // ---------------------------------------------------------------------
  // Stage counters
  // ---------------------------------------------------------------------

  /** The stage ids with a truthy `cleared`. */
  function ClearedKeys(stages: map<string, StageProgress>): set<string>
  {
    set k | k in stages && stages[k].cleared
  }

  /** `countClearedStages(save)`: never more than the number of entries. */
  method CountClearedStages(stages: map<string, StageProgress>) returns (n: nat)
    ensures n == |ClearedKeys(stages)|
    ensures n <= |stages|
  {
    n := 0;
    var remaining := stages.Keys;
    ghost var seen: set<string> := {};
    while remaining != {}
      invariant remaining <= stages.Keys && seen == stages.Keys - remaining
      invariant n == |ClearedAmong(stages, seen)|
      decreases |remaining|
    {
      var key :| key in remaining;
      ClearedAmongAdd(stages, seen, key);
      assert seen + {key} == stages.Keys - (remaining - {key});
      if stages[key].cleared {
        n := n + 1;
      }
      remaining := remaining - {key};
      seen := seen + {key};
    }
    assert seen == stages.Keys;
    ClearedAmongAll(stages);
  }

  /** The cleared stage ids among `seen`. */
  ghost function ClearedAmong(stages: map<string, StageProgress>, seen: set<string>): set<string>
  {
    set k | k in seen && k in stages && stages[k].cleared
  }

  lemma ClearedAmongAll(stages: map<string, StageProgress>)
    ensures ClearedAmong(stages, stages.Keys) == ClearedKeys(stages)
    ensures |ClearedKeys(stages)| <= |stages|
  {
    SubsetCard(ClearedKeys(stages), stages.Keys);
  }

  lemma ClearedAmongAdd(stages: map<string, StageProgress>, seen: set<string>, key: string)
    requires key in stages && key !in seen
    ensures stages[key].cleared ==>
              ClearedAmong(stages, seen + {key}) == ClearedAmong(stages, seen) + {key} &&
              key !in ClearedAmong(stages, seen)
    ensures !stages[key].cleared ==> ClearedAmong(stages, seen + {key}) == ClearedAmong(stages, seen)
  {
  }

  lemma SubsetCard(a: set<string>, b: set<string>)
    requires a <= b
    ensures |a| <= |b|
  {
    assert b == a + (b - a);
  }

  /** `stageList.every((st) => stages?.[st.id]?.cleared === true)` */
  predicate EveryCleared(stageList: seq<StageDef>, stages: map<string, StageProgress>)
  {
    forall i :: 0 <= i < |stageList| ==> stageList[i].id in stages && stages[stageList[i].id].cleared
  }

  /** `isAllStagesCleared(masters, save)`: false for an empty or missing stage
      list, otherwise every listed stage is cleared. */
  function IsAllStagesCleared(stageList: Option<seq<StageDef>>, stages: map<string, StageProgress>): (b: bool)
    ensures b <==> stageList.Some? && |stageList.value| > 0 && EveryCleared(stageList.value, stages)
  {
    var list := GetOr(stageList, []);
    if |list| == 0 then false else AllCleared(list, stages)
  }

  function AllCleared(list: seq<StageDef>, stages: map<string, StageProgress>): (b: bool)
    ensures b <==> EveryCleared(list, stages)
  {
    if list == [] then true
    else (list[0].id in stages && stages[list[0].id].cleared) && AllCleared(list[1..], stages)
  }

  /** `getBestScoreForStage(save, stageId)`: a missing entry or score is 0. */
  function BestScoreForStage(stages: map<string, StageProgress>, stageId: string): (best: int)
    ensures stageId in stages && stages[stageId].bestScore.Some? ==> best == stages[stageId].bestScore.value
    ensures stageId !in stages || stages[stageId].bestScore.None? ==> best == 0
  {
    if stageId in stages && stages[stageId].bestScore.Some? then stages[stageId].bestScore.value else 0
  }

  // ---------------------------------------------------------------------
  // checkCondition
  // ---------------------------------------------------------------------

  /** What the conditions read from the save. */
  datatype SaveView = SaveView(stages: map<string, StageProgress>, totalPulls: int, coins: int, ownedCount: nat)

  function ViewOf(s: Save): SaveView
    reads s`stages, s`gacha, s`coins, s`avatar
  {
    SaveView(s.stages,
             if s.gacha.Some? then GetOr(s.gacha.value.totalPulls, 0) else 0,
             CoinsOf(s.coins),
             |OwnedIds(s.avatar)|)
  }

  /** `count >= Number(condValue)`; a non-numeric threshold is never met. */
  predicate AtLeast(count: int, condValue: Option<Scalar>)
  {
    var n := ToNumber(condValue);
    n.Some? && count as real >= n.value
  }

  /** `checkCondition(masters, save, condType, condValue)` */
  predicate CheckCondition(stageList: Option<seq<StageDef>>, v: SaveView,
                           condType: Option<string>, condValue: Option<Scalar>)
  {
    if condType == Some("any_stage_cleared") then |ClearedKeys(v.stages)| >= 1
    else if condType == Some("stage_cleared_count_at_least") then AtLeast(|ClearedKeys(v.stages)|, condValue)
    else if condType == Some("all_stages_cleared") then IsAllStagesCleared(stageList, v.stages)
    else if condType == Some("total_gacha_pulls_at_least") then AtLeast(v.totalPulls, condValue)
    else if condType == Some("coins_at_least") then AtLeast(v.coins, condValue)
    else if condType == Some("owned_avatar_items_at_least") then AtLeast(v.ownedCount, condValue)
    else if condType == Some("best_score_mode_at_least") then
      var parsed := ParseModeScoreValue(condValue);
      parsed.Some? && BestScoreForStage(v.stages, parsed.value.mode) as real >= parsed.value.score
    else false
  }

  /** Unknown condition types and missing thresholds are never met; the
      counting conditions are monotone in the counter. */
  lemma CheckConditionFacts(stageList: Option<seq<StageDef>>, v: SaveView, w: SaveView,
                            condType: Option<string>, condValue: Option<Scalar>)
    ensures condType.None? ==> !CheckCondition(stageList, v, condType, condValue)
    ensures condValue.None? && condType != Some("any_stage_cleared") && condType != Some("all_stages_cleared") ==>
              !CheckCondition(stageList, v, condType, condValue)
    ensures condType == Some("coins_at_least") && v.coins <= w.coins && CheckCondition(stageList, v, condType, condValue) ==>
              CheckCondition(stageList, w, condType, condValue)
    ensures (condType == Some("total_gacha_pulls_at_least") && v.totalPulls <= w.totalPulls &&
             CheckCondition(stageList, v, condType, condValue)) ==> CheckCondition(stageList, w, condType, condValue)
    ensures (condType == Some("owned_avatar_items_at_least") && v.ownedCount <= w.ownedCount &&
             CheckCondition(stageList, v, condType, condValue)) ==> CheckCondition(stageList, w, condType, condValue)
  {
  }

  /** The condition "stage_cleared_count_at_least" with threshold 1 is the
      condition "any_stage_cleared". */
  lemma ClearedCountOneIsAny(stageList: Option<seq<StageDef>>, v: SaveView)
    ensures CheckCondition(stageList, v, Some("stage_cleared_count_at_least"), Some(SNum(1.0))) ==
            CheckCondition(stageList, v, Some("any_stage_cleared"), None)
  {
  }

  // ---------------------------------------------------------------------
  // unlockTitlesIfAny
  // ---------------------------------------------------------------------

  /** The ids of `titles` in order, skipping falsy ones: the ids the loop
      may look at. */
  predicate HasId(t: Title)
  {
    TitleIdOf(t).Some? && TitleIdOf(t).value != ""
  }

  /** The Set of unlocked ids, in insertion order, after the loop has seen
      `titles`, starting from `start`. */
  function UnlockScan(titles: seq<Title>, start: seq<string>, stageList: Option<seq<StageDef>>, v: SaveView): (u: seq<string>)
    ensures start <= u
  {
    if titles == [] then start
    else
      var u := UnlockScan(titles[..|titles| - 1], start, stageList, v);
      var t := titles[|titles| - 1];
      if HasId(t) && TitleIdOf(t).value !in u && CheckCondition(stageList, v, t.conditionType, t.conditionValue)
      then u + [TitleIdOf(t).value]
      else u
  }

  /** Every newly unlocked id is new, belongs to a title with that id whose
      condition holds, and appears once. */
  lemma {:induction false} UnlockScanSound(titles: seq<Title>, start: seq<string>, stageList: Option<seq<StageDef>>, v: SaveView)
    requires NoDuplicates(start)
    ensures var u := UnlockScan(titles, start, stageList, v);
            NoDuplicates(u) &&
            forall i :: |start| <= i < |u| ==>
              u[i] !in start &&
              exists k :: 0 <= k < |titles| && TitleIdOf(titles[k]) == Some(u[i]) && HasId(titles[k]) &&
                          CheckCondition(stageList, v, titles[k].conditionType, titles[k].conditionValue)
  {
    if titles != [] {
      var init := titles[..|titles| - 1];
      UnlockScanSound(init, start, stageList, v);
      var u := UnlockScan(init, start, stageList, v);
      forall i | |start| <= i < |u|
        ensures exists k :: 0 <= k < |titles| && TitleIdOf(titles[k]) == Some(u[i]) && HasId(titles[k]) &&
                            CheckCondition(stageList, v, titles[k].conditionType, titles[k].conditionValue)
      {
        var k :| 0 <= k < |init| && TitleIdOf(init[k]) == Some(u[i]) && HasId(init[k]) &&
                 CheckCondition(stageList, v, init[k].conditionType, init[k].conditionValue);
        assert titles[k] == init[k];
      }
    }
  }

  /** A title that has an id and whose condition holds is unlocked after the
      scan, whether before or now. */
  lemma {:induction false} UnlockScanComplete(titles: seq<Title>, start: seq<string>, stageList: Option<seq<StageDef>>,
                                              v: SaveView, k: nat)
    requires k < |titles| && HasId(titles[k])
    requires CheckCondition(stageList, v, titles[k].conditionType, titles[k].conditionValue)
    ensures TitleIdOf(titles[k]).value in UnlockScan(titles, start, stageList, v)
  {
    var init := titles[..|titles| - 1];
    if k < |titles| - 1 {
      assert init[k] == titles[k];
      UnlockScanComplete(init, start, stageList, v, k);
    }
  }

  /** The ids of the titles whose condition holds on `v`. */
  function Satisfied(titles: seq<Title>, stageList: Option<seq<StageDef>>, v: SaveView): set<string>
  {
    set k | 0 <= k < |titles| && HasId(titles[k]) &&
            CheckCondition(stageList, v, titles[k].conditionType, titles[k].conditionValue) :: TitleIdOf(titles[k]).value
  }

  /** The list the save keeps (the old one when nothing is new) holds every
      satisfied title and every previously unlocked id. */
  lemma UnlockedListCovers(titles: seq<Title>, oldIds: seq<string>, stageList: Option<seq<StageDef>>, v: SaveView)
    ensures var u := UnlockScan(titles, Dedup(oldIds), stageList, v);
            && Satisfied(titles, stageList, v) <= (set id | id in u)
            && (forall id :: id in oldIds ==> id in u)
            && (u[|Dedup(oldIds)|..] == [] ==> forall id :: id in u <==> id in oldIds)
  {
    var start := Dedup(oldIds);
    var u := UnlockScan(titles, start, stageList, v);
    DedupProperties(oldIds);
    if u[|start|..] == [] {
      assert u == start;
    }
    forall id | id in oldIds
      ensures id in u
    {
      assert id in start;
    }
    forall id | id in Satisfied(titles, stageList, v)
      ensures id in u
    {
      var k :| 0 <= k < |titles| && HasId(titles[k]) && TitleIdOf(titles[k]).value == id &&
               CheckCondition(stageList, v, titles[k].conditionType, titles[k].conditionValue);
      UnlockScanComplete(titles, start, stageList, v, k);
    }
  }

  /** The unlocked ids the save holds, an absent object or non-array as empty. */
  function UnlockedIdsOf(state: Option<TitleState>): seq<string>
  {
    if state.Some? then GetOr(state.value.unlockedTitleIds, []) else []
  }

  /** The equipped title id, `None` when the titles object is absent. */
  function EquippedIdOf(state: Option<TitleState>): Option<string>
  {
    if state.Some? then state.value.equippedTitleId else None
  }

  /** The loop of `unlockTitlesIfAny` over the title list. */
  method ScanTitles(titles: seq<Title>, start: seq<string>, stageList: Option<seq<StageDef>>, view: SaveView)
    returns (unlocked: seq<string>, newlyUnlocked: seq<string>)
    ensures unlocked == UnlockScan(titles, start, stageList, view)
    ensures newlyUnlocked == unlocked[|start|..]
  {
    unlocked := start;
    newlyUnlocked := [];
    for i := 0 to |titles|
      invariant unlocked == UnlockScan(titles[..i], start, stageList, view)
      invariant unlocked == start + newlyUnlocked
    {
      assert titles[..i + 1][..i] == titles[..i];
      var t := titles[i];
      var id := TitleIdOf(t);
      if id.None? || id.value == "" {
        continue;
      }
      if id.value in unlocked {
        continue;
      }
      if CheckCondition(stageList, view, t.conditionType, t.conditionValue) {
        unlocked := unlocked + [id.value];
        newlyUnlocked := newlyUnlocked + [id.value];
      }
    }
    assert titles[..|titles|] == titles;
  }

  /** What the scan from the de-duplicated old ids adds: only new ids of
      satisfied titles, each non-empty, and something whenever a satisfied
      title is not yet unlocked. */
  lemma UnlockAddsSatisfied(titles: seq<Title>, oldIds: seq<string>, stageList: Option<seq<StageDef>>, v: SaveView)
    ensures var start := Dedup(oldIds);
            var u := UnlockScan(titles, start, stageList, v);
            && (forall i :: |start| <= i < |u| ==>
                  u[i] !in oldIds && u[i] != "" && u[i] in Satisfied(titles, stageList, v))
            && (forall id :: id in u ==> id in oldIds || id in Satisfied(titles, stageList, v))
            && ((exists id :: id in Satisfied(titles, stageList, v) && id !in oldIds) ==> |u| > |start|)
  {
    var start := Dedup(oldIds);
    var u := UnlockScan(titles, start, stageList, v);
    DedupProperties(oldIds);
    UnlockScanSound(titles, start, stageList, v);
    UnlockedListCovers(titles, oldIds, stageList, v);
    forall i | |start| <= i < |u|
      ensures u[i] !in oldIds && u[i] != "" && u[i] in Satisfied(titles, stageList, v)
    {
      assert u[i] !in start &&
             exists k :: 0 <= k < |titles| && TitleIdOf(titles[k]) == Some(u[i]) && HasId(titles[k]) &&
                         CheckCondition(stageList, v, titles[k].conditionType, titles[k].conditionValue);
      var k :| 0 <= k < |titles| && TitleIdOf(titles[k]) == Some(u[i]) && HasId(titles[k]) &&
               CheckCondition(stageList, v, titles[k].conditionType, titles[k].conditionValue);
      assert TitleIdOf(titles[k]).value == u[i];
    }
    forall id | id in u
      ensures id in oldIds || id in Satisfied(titles, stageList, v)
    {
      var i :| 0 <= i < |u| && u[i] == id;
      if i < |start| {
        assert u[i] == start[i];
      }
    }
  }

  /** The titles object `unlockTitlesIfAny` leaves on a save whose titles
      were `state`: the scanned list when something is new (equipping the
      first new id when nothing was equipped), otherwise the old list and
      equipped id. */
  function TitlesAfterUnlock(titles: seq<Title>, stageList: Option<seq<StageDef>>, v: SaveView,
                             state: Option<TitleState>): (r: TitleState)
    ensures r.unlockedTitleIds.Some?
    ensures forall id :: id in UnlockedIdsOf(state) ==> id in r.unlockedTitleIds.value
    ensures Satisfied(titles, stageList, v) <= set id | id in r.unlockedTitleIds.value
    ensures forall id :: id in r.unlockedTitleIds.value ==>
              id in UnlockedIdsOf(state) || id in Satisfied(titles, stageList, v)
    ensures EquippedIdOf(state).Some? && EquippedIdOf(state) != Some("") ==> r.equippedTitleId == EquippedIdOf(state)
    ensures r.equippedTitleId != EquippedIdOf(state) ==>
              && (EquippedIdOf(state).None? || EquippedIdOf(state) == Some(""))
              && r.equippedTitleId.Some? && r.equippedTitleId.value != ""
              && r.equippedTitleId.value in Satisfied(titles, stageList, v)
              && r.equippedTitleId.value !in UnlockedIdsOf(state)
    ensures (EquippedIdOf(state).None? || EquippedIdOf(state) == Some("")) &&
            (exists id :: id in Satisfied(titles, stageList, v) && id !in UnlockedIdsOf(state)) ==>
              r.equippedTitleId.Some? && r.equippedTitleId.value != ""
    ensures (forall id :: id in Satisfied(titles, stageList, v) ==> id in UnlockedIdsOf(state)) ==>
              r == TitleState(EquippedIdOf(state), Some(UnlockedIdsOf(state)))
  {
    var oldIds := UnlockedIdsOf(state);
    var start := Dedup(oldIds);
    var u := UnlockScan(titles, start, stageList, v);
    var eq := EquippedIdOf(state);
    UnlockedListCovers(titles, oldIds, stageList, v);
    UnlockAddsSatisfied(titles, oldIds, stageList, v);
    if |u| > |start| then
      assert u[|start|] in Satisfied(titles, stageList, v) && u[|start|] !in oldIds;
      TitleState(if eq.None? || eq == Some("") then Some(u[|start|]) else eq, Some(u))
    else
      TitleState(eq, Some(oldIds))
  }

  /** `unlockTitlesIfAny(masters, save)`: returns the newly unlocked ids;
      afterwards every title whose condition holds is unlocked and no
      previously unlocked id is lost. */
  method UnlockTitlesIfAny(titles: seq<Title>, stageList: Option<seq<StageDef>>, save: Save)
    returns (newlyUnlocked: seq<string>)
    modifies save`titles
    ensures save.titles.Some? && save.titles.value.unlockedTitleIds.Some?
    ensures var start := Dedup(UnlockedIdsOf(old(save.titles)));
            var u := UnlockScan(titles, start, stageList, ViewOf(save));
            && newlyUnlocked == u[|start|..]
            && save.titles.value.unlockedTitleIds.value == (if newlyUnlocked == [] then UnlockedIdsOf(old(save.titles)) else u)
    ensures var oldEquipped := EquippedIdOf(old(save.titles));
            save.titles.value.equippedTitleId ==
              (if newlyUnlocked != [] && (oldEquipped.None? || oldEquipped == Some("")) then Some(newlyUnlocked[0])
               else oldEquipped)
    ensures Satisfied(titles, stageList, ViewOf(save)) <= set id | id in save.titles.value.unlockedTitleIds.value
    ensures forall id :: id in UnlockedIdsOf(old(save.titles)) ==> id in save.titles.value.unlockedTitleIds.value
    ensures save.titles == Some(TitlesAfterUnlock(titles, stageList, ViewOf(save), old(save.titles)))
  {
    var oldIds := UnlockedIdsOf(save.titles);
    var equipped := EquippedIdOf(save.titles);
    var view := ViewOf(save);
    var unlocked;
    unlocked, newlyUnlocked := ScanTitles(titles, Dedup(oldIds), stageList, view);
    UnlockedListCovers(titles, oldIds, stageList, view);
    if |newlyUnlocked| > 0 {
      if equipped.None? || equipped.value == "" {
        equipped := Some(newlyUnlocked[0]);
      }
      save.titles := Some(TitleState(equipped, Some(unlocked)));
    } else {
      save.titles := Some(TitleState(equipped, Some(oldIds)));
    }
  }

  // ---------------------------------------------------------------------
  // Reading titles back
  // ---------------------------------------------------------------------

  /** `getTitleById(masters, id)`: the first title whose `title_id ?? id` is
      the id; nothing for a falsy id. */
  function GetTitleById(titles: seq<Title>, id: Option<string>): (r: Option<Title>)
    ensures id.None? || id == Some("") ==> r.None?
    ensures r.Some? ==> r.value in titles && TitleIdOf(r.value) == id
    ensures r.Some? ==> exists k :: 0 <= k < |titles| && titles[k] == r.value &&
                          forall j :: 0 <= j < k ==> TitleIdOf(titles[j]) != id
    ensures r.None? && id.Some? && id.value != "" ==> forall t :: t in titles ==> TitleIdOf(t) != id
  {
    if id.None? || id.value == "" then None else FindTitle(titles, id.value)
  }

  /** `list.find`: the first title whose id is `id`. */
  function FindTitle(titles: seq<Title>, id: string): (r: Option<Title>)
    ensures r.Some? ==> r.value in titles && TitleIdOf(r.value) == Some(id)
    ensures r.Some? ==> exists k :: 0 <= k < |titles| && titles[k] == r.value &&
                          forall j :: 0 <= j < k ==> TitleIdOf(titles[j]) != Some(id)
    ensures r.None? ==> forall t :: t in titles ==> TitleIdOf(t) != Some(id)
  {
    if titles == [] then None
    else if TitleIdOf(titles[0]) == Some(id) then Some(titles[0])
    else
      var r := FindTitle(titles[1..], id);
      if r.Some? then
        var k :| 0 <= k < |titles[1..]| && titles[1..][k] == r.value &&
                 forall j :: 0 <= j < k ==> TitleIdOf(titles[1..][j]) != Some(id);
        assert titles[k + 1] == r.value;
        r
      else r
  }

  /** `getEquippedTitle(masters, save)` */
  function GetEquippedTitle(titles: seq<Title>, state: Option<TitleState>): (r: Option<Title>)
    ensures r.Some? ==> state.Some? && TitleIdOf(r.value) == state.value.equippedTitleId
  {
    GetTitleById(titles, if state.Some? then state.value.equippedTitleId else None)
  }

  /** `getUnlockedTitles(masters, save)`: the known titles of the unlocked
      ids, in the ids' order; unknown ids are dropped. */
  function GetUnlockedTitles(titles: seq<Title>, ids: seq<string>): (r: seq<Title>)
    ensures |r| <= |ids|
    ensures forall t :: t in r ==> t in titles && TitleIdOf(t).Some? && TitleIdOf(t).value in ids
  {
    if ids == [] then []
    else
      var hit := GetTitleById(titles, Some(ids[0]));
      (if hit.Some? then [hit.value] else []) + GetUnlockedTitles(titles, ids[1..])
  }

  /** Every unlocked id that names a known title contributes that title. */
  lemma {:induction false} GetUnlockedTitlesComplete(titles: seq<Title>, ids: seq<string>, i: nat)
    requires i < |ids| && GetTitleById(titles, Some(ids[i])).Some?
    ensures GetTitleById(titles, Some(ids[i])).value in GetUnlockedTitles(titles, ids)
  {
    if i > 0 {
      GetUnlockedTitlesComplete(titles, ids[1..], i - 1);
    }
  }

  /** `getUnlockedTitles` on the save's list (a non-array reads as empty). */
  function UnlockedTitlesOf(titles: seq<Title>, state: Option<TitleState>): seq<Title>
  {
    GetUnlockedTitles(titles, if state.Some? then GetOr(state.value.unlockedTitleIds, []) else [])
  }
}

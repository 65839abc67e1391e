/** The player's save as the game screens update it in place. Every part the
    screens may find missing is an `Option`; `None` is an absent (or null)
    object. Values the screens only ever store as numbers are integers. */
module SaveModel {
  import opened Common

  /** `progress.stages[stageId]` */
  datatype StageProgress = StageProgress(cleared: bool, bestScore: Option<int>)

  /** `{wins, losses}` of one battle bucket, as stored (possibly not numbers). */
  datatype WinLoss = WinLoss(wins: Option<Scalar>, losses: Option<Scalar>)

  /** `save.battle` */
  datatype BattleRecord = BattleRecord(cpu: Option<WinLoss>, pvp: Option<WinLoss>)

  /** `save.titles`; `unlockedTitleIds` is `None` when it is not an array. */
  datatype TitleState = TitleState(equippedTitleId: Option<string>, unlockedTitleIds: Option<seq<string>>)

  /** `save.gacha` */
  datatype GachaStats = GachaStats(totalPulls: Option<int>, lastPulledAt: Option<string>)

  /** `save.avatar`: the equipped map (slot -> item id or null) and the owned
      ids (`None` when not an array). */
  datatype AvatarState = AvatarState(equipped: Option<map<string, Option<string>>>, ownedItemIds: Option<seq<string>>)

  const ZeroWinLoss := WinLoss(Some(SNum(0.0)), Some(SNum(0.0)))

  /** `{ body: null, head: null, outfit: null, background: null }` */
  const EmptyEquipped: map<string, Option<string>> :=
    map["body" := None, "head" := None, "outfit" := None, "background" := None]

  /** The in-memory save object. */
  class Save {
    var coins: Option<int>
    var stages: map<string, StageProgress>
    var avatar: Option<AvatarState>
    var gacha: Option<GachaStats>
    var titles: Option<TitleState>
    var battle: Option<BattleRecord>
    var lastPlayedAt: string

    /** `saveNow(save)`: stamps `meta.lastPlayedAt` (writing to storage is
        not modelled). */
    method SaveNow(now: string)
      modifies this`lastPlayedAt
      ensures lastPlayedAt == now
    {
      lastPlayedAt := now;
    }
  }

  /** `Number(save?.economy?.coins ?? 0)` */
  function CoinsOf(coins: Option<int>): (c: int)
    ensures coins.Some? ==> c == coins.value
    ensures coins.None? ==> c == 0
  {
    GetOr(coins, 0)
  }

  /** `Array.isArray(save?.avatar?.ownedItemIds) ? ... : []` */
  function OwnedIds(avatar: Option<AvatarState>): (ids: seq<string>)
    ensures avatar.Some? && avatar.value.ownedItemIds.Some? ==> ids == avatar.value.ownedItemIds.value
    ensures avatar.None? || avatar.value.ownedItemIds.None? ==> ids == []
  {
    if avatar.Some? && avatar.value.ownedItemIds.Some? then avatar.value.ownedItemIds.value else []
  }
}

/** The gacha draw screen: a pack is chosen by id, an entry of its pool is
    drawn with probability proportional to its weight, and a pull spends the
    pack's cost, adds the drawn item to the owned list once, and counts the
    pull. The draw `Math.random() * total` is a parameter `r` in
    [0, total). */
module Gacha {
  import opened Common
  import opened SaveModel
  import opened Avatar

  /** An entry of a pack's pool: `item_id` and a numeric `weight`. */
  datatype PoolEntry = PoolEntry(itemId: Option<string>, weight: Option<real>)

  /** A gacha pack: `gacha_id`, `cost_coin` and the pool (`None` when the
      pool is not an array). */
  datatype Pack = Pack(gachaId: Option<string>, costCoin: Option<int>, pool: Option<seq<PoolEntry>>)

  /** `Math.max(0, Number(p.weight ?? 0))`: missing and negative weights
      count as 0. */
  function WeightOf(p: PoolEntry): (w: real)
    ensures w >= 0.0
    ensures p.weight.Some? && p.weight.value > 0.0 ==> w == p.weight.value
    ensures p.weight.None? || p.weight.value <= 0.0 ==> w == 0.0
  {
    if p.weight.Some? && p.weight.value > 0.0 then p.weight.value else 0.0
  }

  /** The sum of the weights. */
  function TotalWeight(pool: seq<PoolEntry>): (t: real)
    ensures t >= 0.0
  {
    if pool == [] then 0.0 else TotalWeight(pool[..|pool| - 1]) + WeightOf(pool[|pool| - 1])
  }

  /** The weight of the first `i` entries. */
  function Cum(pool: seq<PoolEntry>, i: nat): real
    requires i <= |pool|
  {
    TotalWeight(pool[..i])
  }

  lemma CumStep(pool: seq<PoolEntry>, i: nat)
    requires i < |pool|
    ensures Cum(pool, i + 1) == Cum(pool, i) + WeightOf(pool[i])
  {
    assert pool[..i + 1][..i] == pool[..i];
  }

  /** The loop of `pickWeighted` as written: from entry `i` on, `rem` is
      lowered by each weight and the first entry that brings it to 0 or
      below is taken. */
  function ScanAsWritten(pool: seq<PoolEntry>, rem: real, i: nat): Option<nat>
    requires i <= |pool|
    decreases |pool| - i
  {
    if i == |pool| then None
    else
      var rem' := rem - WeightOf(pool[i]);
      if rem' <= 0.0 then Some(i) else ScanAsWritten(pool, rem', i + 1)
  }

  /** `pickWeighted` as written, as the index of the entry drawn: `None`
      when the total weight is not positive; the last entry when the scan
      takes none. */
  function PickWeightedAsWritten(pool: seq<PoolEntry>, r: real): Option<nat>
  {
    var total := TotalWeight(pool);
    if total <= 0.0 then None
    else
      match ScanAsWritten(pool, r, 0)
      case Some(k) => Some(k)
      case None => Some(|pool| - 1)
  }

  /** With `Math.random()` returning 0, the comparison `r <= 0` takes a
      leading entry of weight 0: here the item "a", which has weight 0, is
      drawn although only "b" carries any weight. */
  lemma PickWeightedAsWrittenDrawsZeroWeight()
    ensures var pool := [PoolEntry(Some("a"), Some(0.0)), PoolEntry(Some("b"), Some(5.0))];
            && PickWeightedAsWritten(pool, 0.0) == Some(0)
            && WeightOf(pool[0]) == 0.0
  {
    var pool := [PoolEntry(Some("a"), Some(0.0)), PoolEntry(Some("b"), Some(5.0))];
    assert pool[..1] == [pool[0]];
    assert pool[..2][..1] == pool[..1];
    assert TotalWeight(pool) == 5.0 by {
      assert pool[..|pool| - 1] == [pool[0]];
      assert [pool[0]][..0] == [];
    }
  }

  /** The corrected scan: an entry is taken when it brings `rem` strictly
      below 0, so an entry of weight 0 is never taken. */
  function Scan(pool: seq<PoolEntry>, rem: real, i: nat): Option<nat>
    requires i <= |pool|
    decreases |pool| - i
  {
    if i == |pool| then None
    else
      var rem' := rem - WeightOf(pool[i]);
      if rem' < 0.0 then Some(i) else Scan(pool, rem', i + 1)
  }

  /** The scan from entry `i` finds the entry whose cumulative weight range
      holds `r`. */
  lemma {:induction false} ScanFinds(pool: seq<PoolEntry>, r: real, i: nat)
    requires i <= |pool| && Cum(pool, i) <= r < TotalWeight(pool)
    ensures var k := Scan(pool, r - Cum(pool, i), i);
            && k.Some? && i <= k.value < |pool| && WeightOf(pool[k.value]) > 0.0
            && Cum(pool, k.value) <= r < Cum(pool, k.value + 1)
    decreases |pool| - i
  {
    assert pool[..|pool|] == pool;
    if i < |pool| {
      CumStep(pool, i);
      if r - Cum(pool, i) - WeightOf(pool[i]) >= 0.0 {
        ScanFinds(pool, r, i + 1);
      }
    }
  }

  lemma ScanFromStart(pool: seq<PoolEntry>, r: real)
    requires 0.0 <= r < TotalWeight(pool)
    ensures var k := Scan(pool, r, 0);
            && k.Some? && k.value < |pool| && WeightOf(pool[k.value]) > 0.0
            && Cum(pool, k.value) <= r < Cum(pool, k.value + 1)
  {
    assert pool[..0] == [];
    ScanFinds(pool, r, 0);
    assert r - Cum(pool, 0) == r;
  }

  /** The draw `r = Math.random() * total`: in [0, total), or 0 when the
      total is 0. */
  predicate ValidDraw(pool: seq<PoolEntry>, r: real)
  {
    0.0 <= r && (r < TotalWeight(pool) || r == 0.0)
  }

  /** `pickWeighted` with the comparison made strict: no entry when the
      total weight is not positive; otherwise the entry `k` with
      `Cum(k) <= r < Cum(k + 1)`, which is a member of the pool with a
      positive weight. Each entry is thus drawn for a share of [0, total)
      equal to its weight. */
  function PickWeighted(pool: seq<PoolEntry>, r: real): (k: Option<nat>)
    requires ValidDraw(pool, r)
    ensures TotalWeight(pool) <= 0.0 <==> k.None?
    ensures k.Some? ==> && k.value < |pool| && WeightOf(pool[k.value]) > 0.0
                        && Cum(pool, k.value) <= r < Cum(pool, k.value + 1)
  {
    if TotalWeight(pool) <= 0.0 then None
    else
      ScanFromStart(pool, r);
      Scan(pool, r, 0)
  }

  /** The corrected pick differs from the code as written only on the
      boundaries: whenever `r` is not exactly a cumulative weight, both draw
      the same entry. */
  lemma {:induction false} ScansAgreeOffBoundary(pool: seq<PoolEntry>, r: real, i: nat)
    requires i <= |pool| && Cum(pool, i) <= r < TotalWeight(pool)
    requires forall j :: i < j <= |pool| ==> r != Cum(pool, j)
    ensures ScanAsWritten(pool, r - Cum(pool, i), i) == Scan(pool, r - Cum(pool, i), i)
    decreases |pool| - i
  {
    assert pool[..|pool|] == pool;
    if i < |pool| {
      CumStep(pool, i);
      if r - Cum(pool, i) - WeightOf(pool[i]) >= 0.0 {
        ScansAgreeOffBoundary(pool, r, i + 1);
      }
    }
  }

  /** `p.gacha_id === gachaId` where `gachaId` is `params?.gachaId ?? null`:
      with no requested id the comparison is against `null`, which a pack
      without a `gacha_id` (`undefined`) never equals. */
  predicate PackMatches(pack: Pack, gachaId: Option<string>)
  {
    gachaId.Some? && pack.gachaId == gachaId
  }

  /** The pack the screen shows: the first with the requested `gacha_id`,
      else the first pack, else none. */
  function PackFor(packs: seq<Pack>, gachaId: Option<string>): (p: Option<Pack>)
    ensures packs == [] ==> p.None?
    ensures (exists i :: 0 <= i < |packs| && PackMatches(packs[i], gachaId)) ==>
              p.Some? && PackMatches(p.value, gachaId) &&
              exists i :: 0 <= i < |packs| && packs[i] == p.value &&
                          forall j :: 0 <= j < i ==> !PackMatches(packs[j], gachaId)
    ensures packs != [] && (forall i :: 0 <= i < |packs| ==> !PackMatches(packs[i], gachaId)) ==> p == Some(packs[0])
    ensures packs != [] && gachaId.None? ==> p == Some(packs[0])
  {
    var k := FirstPack(packs, gachaId);
    if k < |packs| then Some(packs[k]) else if packs == [] then None else Some(packs[0])
  }

  function FirstPack(packs: seq<Pack>, gachaId: Option<string>): (k: nat)
    ensures k <= |packs|
    ensures forall j :: 0 <= j < k ==> !PackMatches(packs[j], gachaId)
    ensures k < |packs| ==> PackMatches(packs[k], gachaId)
  {
    if packs == [] then 0
    else if PackMatches(packs[0], gachaId) then 0
    else 1 + FirstPack(packs[1..], gachaId)
  }

  /** `Number(pack.cost_coin ?? 100)` */
  function CostOf(pack: Pack): (c: int)
    ensures pack.costCoin.None? ==> c == 100
    ensures pack.costCoin.Some? ==> c == pack.costCoin.value
  {
    GetOr(pack.costCoin, 100)
  }

  /** `Array.isArray(pack.pool) ? pack.pool : []` */
  function PoolOf(pack: Pack): seq<PoolEntry>
  {
    GetOr(pack.pool, [])
  }

  /** What a click on the pull button did. */
  datatype PullOutcome =
    | NotEnoughCoins
    | NothingDrawn
    | UnknownItem
    | Pulled(itemId: string, already: bool)

  /** The pull button. With fewer coins than the cost, with no entry drawn
      or one without an id, or with an id no avatar item has, nothing
      changes. Otherwise the coins drop by exactly the cost (so they stay
      non-negative), the item id is appended to the owned list unless it is
      already there, `totalPulls` rises by one, and the pull time and the
      save are stamped. */
  method Pull(save: Save, pack: Pack, items: seq<AvatarItem>, r: real, now: string) returns (out: PullOutcome)
    requires ValidDraw(PoolOf(pack), r)
    requires save.coins.Some? || CostOf(pack) > 0
    modifies save`coins, save`avatar, save`gacha, save`lastPlayedAt
    ensures var cost := CostOf(pack);
            var k := PickWeighted(PoolOf(pack), r);
            var drawn := k.Some? && Truthy(PoolOf(pack)[k.value].itemId);
            && (CoinsOf(old(save.coins)) < cost <==> out == NotEnoughCoins)
            && (CoinsOf(old(save.coins)) >= cost && !drawn <==> out == NothingDrawn)
            && ((drawn && CoinsOf(old(save.coins)) >= cost &&
                 GetItemById(items, PoolOf(pack)[k.value].itemId.value).None?) <==> out == UnknownItem)
    ensures !out.Pulled? ==>
              save.coins == old(save.coins) && save.avatar == old(save.avatar) &&
              save.gacha == old(save.gacha) && save.lastPlayedAt == old(save.lastPlayedAt)
    ensures out.Pulled? ==>
              && var id := out.itemId;
              && var oldOwned := OwnedIds(old(save.avatar));
              && PickWeighted(PoolOf(pack), r).Some?
              && PoolOf(pack)[PickWeighted(PoolOf(pack), r).value].itemId == Some(id)
              && GetItemById(items, id).Some?
              && save.coins == Some(CoinsOf(old(save.coins)) - CostOf(pack))
              && save.coins.value >= 0
              && out.already == (id in oldOwned)
              && save.avatar.Some?
              && save.avatar.value.ownedItemIds == Some(if out.already then oldOwned else oldOwned + [id])
              && save.avatar.value.equipped ==
                 (if old(save.avatar).None? then Some(EmptyEquipped) else old(save.avatar).value.equipped)
              && (NoDuplicates(oldOwned) ==> NoDuplicates(save.avatar.value.ownedItemIds.value))
              && save.gacha == Some(GachaStats(
                   Some((if old(save.gacha).None? then 0 else GetOr(old(save.gacha).value.totalPulls, 0)) + 1),
                   Some(now)))
              && save.lastPlayedAt == now
  {
    var cost := CostOf(pack);
    if CoinsOf(save.coins) < cost {
      return NotEnoughCoins;
    }
    var pool := PoolOf(pack);
    var picked := PickWeighted(pool, r);
    if picked.None? || !Truthy(pool[picked.value].itemId) {
      return NothingDrawn;
    }
    var id := pool[picked.value].itemId.value;
    var item := GetItemById(items, id);
    if item.None? {
      return UnknownItem;
    }

    save.coins := Some(save.coins.value - cost);

    var owned := OwnedIds(save.avatar);
    if save.avatar.None? {
      save.avatar := Some(AvatarState(Some(EmptyEquipped), Some([])));
    }
    if save.avatar.value.ownedItemIds.None? {
      save.avatar := Some(save.avatar.value.(ownedItemIds := Some(owned)));
    }
    var list := save.avatar.value.ownedItemIds.value;
    var already := id in list;
    if !already {
      save.avatar := Some(save.avatar.value.(ownedItemIds := Some(list + [id])));
      assert NoDuplicates(list) ==> NoDuplicates(list + [id]) by {
        if NoDuplicates(list) {
          forall i, j | 0 <= i < j < |list + [id]|
            ensures (list + [id])[i] != (list + [id])[j]
          {
            if j == |list| {
              assert (list + [id])[i] == list[i];
            }
          }
        }
      }
    }

    if save.gacha.None? {
      save.gacha := Some(GachaStats(Some(0), None));
    }
    var g := save.gacha.value;
    save.gacha := Some(GachaStats(Some(GetOr(g.totalPulls, 0) + 1), Some(now)));

    save.SaveNow(now);
    out := Pulled(id, already);
  }
}

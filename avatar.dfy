/** The avatar screen: the body items every player owns from the start, the
    item list grouped by slot type, the item lookup, and the two guarded
    edits of the equipped map (equip an owned item, clear the head slot). */
module Avatar {
  import opened Common
  import opened SaveModel

  /** An avatar item of the master data: `item_id` and `type`. */
  datatype AvatarItem = AvatarItem(itemId: Option<string>, kind: Option<string>)

  /** JavaScript truthiness of an optional string. */
  predicate Truthy(s: Option<string>)
  {
    s.Some? && s.value != ""
  }

  /** An item with a truthy `type`. */
  predicate Typed(it: AvatarItem)
  {
    Truthy(it.kind)
  }

  const DefaultTypes: set<string> := {"body", "head", "outfit", "background"}

  /** The items of type `t`, in their original order. */
  function ItemsOfType(items: seq<AvatarItem>, t: string): (r: seq<AvatarItem>)
    ensures |r| <= |items|
  {
    if items == [] then []
    else
      var last := items[|items| - 1];
      ItemsOfType(items[..|items| - 1], t) + (if Typed(last) && last.kind.value == t then [last] else [])
  }

  /** A bucket holds exactly the typed items of its type. */
  lemma {:induction false} ItemsOfTypeMembers(items: seq<AvatarItem>, t: string)
    ensures forall x :: x in ItemsOfType(items, t) <==> x in items && Typed(x) && x.kind.value == t
  {
    if items != [] {
      var init := items[..|items| - 1];
      ItemsOfTypeMembers(init, t);
      assert items == init + [items[|items| - 1]];
    }
  }

  /** The types that occur among the typed items. */
  function KindsOf(items: seq<AvatarItem>): set<string>
  {
    set x | x in items && Typed(x) :: x.kind.value
  }

  /** `m` holds exactly the buckets of `items`. */
  predicate Grouped(m: map<string, seq<AvatarItem>>, items: seq<AvatarItem>)
  {
    && m.Keys == DefaultTypes + KindsOf(items)
    && forall t :: t in m ==> m[t] == ItemsOfType(items, t)
  }

  /** One step of the grouping loop: a typed item is appended to its
      type's bucket, created empty if missing. */
  function AddToBucket(m: map<string, seq<AvatarItem>>, it: AvatarItem): map<string, seq<AvatarItem>>
  {
    if Typed(it) then
      var t := it.kind.value;
      m[t := (if t in m then m[t] else []) + [it]]
    else m
  }

  lemma GroupedSnoc(m: map<string, seq<AvatarItem>>, items: seq<AvatarItem>, it: AvatarItem)
    requires Grouped(m, items)
    ensures Grouped(AddToBucket(m, it), items + [it])
  {
    ItemsOfTypeSnoc(items, it);
    KindsOfSnoc(items, it);
    if Typed(it) && it.kind.value !in m {
      NoItemsOfAbsentKind(items, it.kind.value);
    }
  }

  /** `groupItemsByType`: the four default buckets are always present, one
      bucket per other type that occurs, and each bucket holds exactly the
      items of its type in their original order (`GroupedBuckets` draws the
      consequences: untyped items are skipped, and a typed item lands in its
      own bucket and in no other). */
  method GroupItemsByType(items: seq<AvatarItem>) returns (m: map<string, seq<AvatarItem>>)
    ensures Grouped(m, items)
  {
    m := map["body" := [], "head" := [], "outfit" := [], "background" := []];
    var i := 0;
    while i < |items|
      invariant 0 <= i <= |items|
      invariant m == GroupFold(items[..i])
    {
      assert items[..i + 1][..i] == items[..i];
      m := PushToBucket(m, items[i]);
      i := i + 1;
    }
    assert items[..|items|] == items;
    GroupFoldGrouped(items);
  }

  /** The map the loop has built after reading `items`. */
  function GroupFold(items: seq<AvatarItem>): map<string, seq<AvatarItem>>
  {
    if items == [] then map["body" := [], "head" := [], "outfit" := [], "background" := []]
    else AddToBucket(GroupFold(items[..|items| - 1]), items[|items| - 1])
  }

  lemma {:induction false} GroupFoldGrouped(items: seq<AvatarItem>)
    ensures Grouped(GroupFold(items), items)
  {
    if items == [] {
      GroupedInit();
    } else {
      var init := items[..|items| - 1];
      GroupFoldGrouped(init);
      GroupedSnoc(GroupFold(init), init, items[|items| - 1]);
      assert init + [items[|items| - 1]] == items;
    }
  }

  /** The four default buckets, all empty, group the empty list. */
  lemma GroupedInit()
    ensures Grouped(map["body" := [], "head" := [], "outfit" := [], "background" := []], [])
  {
    var m: map<string, seq<AvatarItem>> := map["body" := [], "head" := [], "outfit" := [], "background" := []];
    assert KindsOf([]) == {};
    assert m.Keys == DefaultTypes;
  }

  /** The loop body: an untyped item is skipped; a typed one is pushed onto
      its type's bucket, which is created empty first if missing. */
  method PushToBucket(m: map<string, seq<AvatarItem>>, it: AvatarItem) returns (m': map<string, seq<AvatarItem>>)
    ensures m' == AddToBucket(m, it)
  {
    m' := m;
    if !Typed(it) {
      return;
    }
    var t := it.kind.value;
    if t !in m' {
      m' := m'[t := []];
    }
    m' := m'[t := m'[t] + [it]];
  }

  /** In a grouping, a typed item is in its own bucket and no other, and
      every bucket holds typed items of the list only. */
  lemma GroupedBuckets(m: map<string, seq<AvatarItem>>, items: seq<AvatarItem>)
    requires Grouped(m, items)
    ensures forall x, t :: x in items && Typed(x) && t in m ==> (x in m[t] <==> t == x.kind.value)
    ensures forall t, x :: t in m && x in m[t] ==> Typed(x) && x in items
  {
    forall t | t in m
      ensures forall x :: x in m[t] <==> x in items && Typed(x) && x.kind.value == t
    {
      ItemsOfTypeMembers(items, t);
    }
  }

  lemma ItemsOfTypeSnoc(items: seq<AvatarItem>, x: AvatarItem)
    ensures forall t :: ItemsOfType(items + [x], t) ==
                        ItemsOfType(items, t) + (if Typed(x) && x.kind.value == t then [x] else [])
  {
    assert (items + [x])[..|items|] == items;
  }

  lemma KindsOfSnoc(items: seq<AvatarItem>, x: AvatarItem)
    ensures KindsOf(items + [x]) == KindsOf(items) + (if Typed(x) then {x.kind.value} else {})
  {
  }

  lemma NoItemsOfAbsentKind(items: seq<AvatarItem>, t: string)
    requires t !in KindsOf(items)
    ensures ItemsOfType(items, t) == []
  {
    ItemsOfTypeMembers(items, t);
  }

  /** The index of the first item whose `item_id` is `id`, or `|items|`. */
  function FirstWithId(items: seq<AvatarItem>, id: string): (k: nat)
    ensures k <= |items|
    ensures forall j :: 0 <= j < k ==> items[j].itemId != Some(id)
    ensures k < |items| ==> items[k].itemId == Some(id)
  {
    if items == [] then 0
    else if items[0].itemId == Some(id) then 0
    else 1 + FirstWithId(items[1..], id)
  }

  /** `getItemById`: the first item whose `item_id` equals `id`, or null
      when there is none. */
  function GetItemById(items: seq<AvatarItem>, id: string): (r: Option<AvatarItem>)
    ensures r.None? <==> forall x :: x in items ==> x.itemId != Some(id)
    ensures r.Some? ==> r.value.itemId == Some(id) &&
                        exists k :: 0 <= k < |items| && items[k] == r.value &&
                                    forall j :: 0 <= j < k ==> items[j].itemId != Some(id)
  {
    var k := FirstWithId(items, id);
    if k < |items| then Some(items[k]) else None
  }

  /** The ids of the items with a truthy `item_id`, in order. */
  function IdsOf(items: seq<AvatarItem>): (ids: seq<string>)
    ensures forall x :: x in ids <==> x != "" && exists it :: it in items && it.itemId == Some(x)
  {
    if items == [] then []
    else
      var last := items[|items| - 1];
      IdsOf(items[..|items| - 1]) + (if Truthy(last.itemId) then [last.itemId.value] else [])
  }

  /** The owned list after `ensureDefaultAvatarOwned`: the old list through
      a Set, then every body id added. It has no repeats, keeps every
      previously owned id, holds every body id, and holds nothing else. */
  function OwnedAfterDefaults(owned: seq<string>, items: seq<AvatarItem>): (r: seq<string>)
    ensures NoDuplicates(r)
    ensures forall x :: x in owned ==> x in r
    ensures forall it :: it in items && it.kind == Some("body") && Truthy(it.itemId) ==> it.itemId.value in r
    ensures forall x :: x in r ==> x in owned || x in IdsOf(ItemsOfType(items, "body"))
  {
    var bodyIds := IdsOf(ItemsOfType(items, "body"));
    ItemsOfTypeMembers(items, "body");
    DedupProperties(owned);
    AddAllProperties(Dedup(owned), bodyIds);
    AddAll(Dedup(owned), bodyIds)
  }

  /** The `body` slot of an equipped map (`undefined` when absent). */
  function BodySlot(eq: map<string, Option<string>>): Option<string>
  {
    if "body" in eq then eq["body"] else None
  }

  /** The equipped map after `ensureDefaultAvatarOwned`: a missing map is
      replaced by the empty one; an empty body slot gets the first body's id
      when that is truthy. Every other slot is kept, and an equipped body is
      never replaced. */
  function EquipFirstBody(eq: Option<map<string, Option<string>>>, bodies: seq<AvatarItem>)
    : (r: map<string, Option<string>>)
    ensures var e := GetOr(eq, EmptyEquipped);
            && (forall k :: k != "body" ==> (k in r <==> k in e) && (k in e ==> r[k] == e[k]))
            && (Truthy(BodySlot(e)) ==> r == e)
            && (bodies != [] && Truthy(bodies[0].itemId) ==> Truthy(BodySlot(r)))
            && (!Truthy(BodySlot(e)) && bodies != [] && Truthy(bodies[0].itemId) ==> BodySlot(r) == bodies[0].itemId)
            && (!(bodies != [] && Truthy(bodies[0].itemId)) ==> r == e)
  {
    var e := GetOr(eq, EmptyEquipped);
    if !Truthy(BodySlot(e)) && bodies != [] && Truthy(bodies[0].itemId) then e["body" := bodies[0].itemId] else e
  }

  /** `ensureDefaultAvatarOwned`: with no item list, or an empty one, the
      save is untouched; otherwise the owned list becomes
      `OwnedAfterDefaults` and the first body is equipped if none is. */
  method EnsureDefaultAvatarOwned(items: Option<seq<AvatarItem>>, save: Save)
    requires items.Some? && items.value != [] ==> save.avatar.Some?
    modifies save`avatar
    ensures items.None? || items.value == [] ==> save.avatar == old(save.avatar)
    ensures items.Some? && items.value != [] ==>
              save.avatar == Some(AvatarState(
                Some(EquipFirstBody(old(save.avatar).value.equipped, ItemsOfType(items.value, "body"))),
                Some(OwnedAfterDefaults(OwnedIds(old(save.avatar)), items.value))))
  {
    if items.None? || items.value == [] {
      return;
    }
    var bodies := ItemsOfType(items.value, "body");
    var owned := OwnedAfterDefaults(OwnedIds(save.avatar), items.value);
    var eq := EquipFirstBody(save.avatar.value.equipped, bodies);
    save.avatar := Some(AvatarState(Some(eq), Some(owned)));
  }

  /** Running the defaults a second time changes nothing. */
  lemma EnsureDefaultsIdempotent(owned: seq<string>, eq: Option<map<string, Option<string>>>, items: seq<AvatarItem>)
    ensures var once := OwnedAfterDefaults(owned, items);
            OwnedAfterDefaults(once, items) == once
    ensures var bodies := ItemsOfType(items, "body");
            EquipFirstBody(Some(EquipFirstBody(eq, bodies)), bodies) == EquipFirstBody(eq, bodies)
  {
    var once := OwnedAfterDefaults(owned, items);
    var bodyIds := IdsOf(ItemsOfType(items, "body"));
    DedupOfDistinct(once);
    forall x | x in bodyIds
      ensures x in once
    {
      var it :| it in ItemsOfType(items, "body") && it.itemId == Some(x);
      ItemsOfTypeMembers(items, "body");
    }
    AddAllNoop(once, bodyIds);
  }

  /** The equip click: with an empty type or id, or an id the player does not
      own, nothing changes; otherwise `equipped[type]` becomes the id, every
      other slot and the owned list are kept, and the save is stamped. */
  method Equip(save: Save, slot: string, id: string, now: string)
    requires slot != "" && id != "" && id in OwnedIds(save.avatar) ==> save.avatar.value.equipped.Some?
    modifies save`avatar, save`lastPlayedAt
    ensures !(slot != "" && id != "" && id in OwnedIds(old(save.avatar))) ==>
              save.avatar == old(save.avatar) && save.lastPlayedAt == old(save.lastPlayedAt)
    ensures slot != "" && id != "" && id in OwnedIds(old(save.avatar)) ==>
              && save.avatar.Some?
              && save.avatar.value.ownedItemIds == old(save.avatar).value.ownedItemIds
              && save.avatar.value.equipped == Some(old(save.avatar).value.equipped.value[slot := Some(id)])
              && save.lastPlayedAt == now
  {
    if slot == "" || id == "" {
      return;
    }
    if id !in OwnedIds(save.avatar) {
      return;
    }
    var av := save.avatar.value;
    save.avatar := Some(av.(equipped := Some(av.equipped.value[slot := Some(id)])));
    save.SaveNow(now);
  }

  /** "Clear head": only the head slot changes, to null. */
  method ClearHead(save: Save, now: string)
    requires save.avatar.Some? && save.avatar.value.equipped.Some?
    modifies save`avatar, save`lastPlayedAt
    ensures save.avatar.Some? && save.avatar.value.ownedItemIds == old(save.avatar).value.ownedItemIds
    ensures save.avatar.value.equipped == Some(old(save.avatar).value.equipped.value["head" := None])
    ensures save.lastPlayedAt == now
  {
    var av := save.avatar.value;
    save.avatar := Some(av.(equipped := Some(av.equipped.value["head" := None])));
    save.SaveNow(now);
  }
}

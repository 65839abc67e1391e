/** The battle room lobby: normalising the room's players, the four lobby
    slots, the host's random question pick, the local run built on
    `game:begin`, and the avatar helpers the lobby and the result screen
    share. */
module BattleLobby {
  import opened Common
  import BattleLogic
  import BattleQuiz

  const LobbySlotCount: nat := 4
  const OnlineMode := "battle_online_local"

  // ---------------------------------------------------------------------
  // Loosely shaped avatar data: resolveEquippedFromAny
  // ---------------------------------------------------------------------

  /** A JavaScript value as found in a player's avatar data. */
  datatype Val = VNull | VBool(b: bool) | VNum(n: real) | VStr(s: string) | VObj(o: Obj)

  /** The properties `resolveEquippedFromAny` looks at; `None` is undefined. */
  datatype Obj = Obj(equipped: Option<Val>, body: Option<Val>, head: Option<Val>,
                     avatar: Option<Val>, profile: Option<Val>)

  predicate Truthy(v: Val)
  {
    match v
    case VNull => false
    case VBool(b) => b
    case VNum(n) => n != 0.0
    case VStr(s) => s != ""
    case VObj(_) => true
  }

  /** `r` is an object met while following `avatar` and `profile` links from
      `v`, or the `equipped` object of one of them. */
  predicate Reaches(v: Option<Val>, r: Obj)
  {
    v.Some? && v.value.VObj? &&
    (v.value.o.equipped == Some(VObj(r)) || v.value.o == r ||
     Reaches(v.value.o.avatar, r) || Reaches(v.value.o.profile, r))
  }

  /** `resolveEquippedFromAny(obj)`: the first of `obj.equipped` (an object),
      `obj` itself (it has `body` or `head`), then the same search in
      `obj.avatar`, or else in `obj.profile`. */
  function ResolveEquippedFromAny(v: Option<Val>): (r: Option<Obj>)
    ensures r.Some? ==> Reaches(v, r.value)
    ensures r.Some? ==> v.Some? && v.value.VObj?
  {
    if v.None? || !Truthy(v.value) || !v.value.VObj? then None
    else
      var o := v.value.o;
      if o.equipped.Some? && o.equipped.value.VObj? then Some(o.equipped.value.o)
      else if o.body.Some? || o.head.Some? then Some(o)
      else if o.avatar.Some? && Truthy(o.avatar.value) then ResolveEquippedFromAny(o.avatar)
      else if o.profile.Some? && Truthy(o.profile.value) then ResolveEquippedFromAny(o.profile)
      else None
  }

  /** Whatever is found carries avatar parts: it is either some object's
      `equipped` object or an object with `body` or `head`; an object with
      none of the five properties resolves to nothing. */
  lemma {:induction false} ResolveEquippedFindsParts(v: Option<Val>)
    ensures var r := ResolveEquippedFromAny(v);
            r.Some? ==> r.value.body.Some? || r.value.head.Some? || IsEquippedOnPath(v, r.value)
    ensures v.Some? && v.value.VObj? && v.value.o == Obj(None, None, None, None, None) ==>
              ResolveEquippedFromAny(v).None?
  {
    if v.Some? && v.value.VObj? {
      var o := v.value.o;
      if !(o.equipped.Some? && o.equipped.value.VObj?) && !(o.body.Some? || o.head.Some?) {
        if o.avatar.Some? && Truthy(o.avatar.value) {
          ResolveEquippedFindsParts(o.avatar);
        } else if o.profile.Some? && Truthy(o.profile.value) {
          ResolveEquippedFindsParts(o.profile);
        }
      }
    }
  }

  /** `r` is the `equipped` object of an object on the `avatar`/`profile` path. */
  predicate IsEquippedOnPath(v: Option<Val>, r: Obj)
  {
    v.Some? && v.value.VObj? &&
    (v.value.o.equipped == Some(VObj(r)) ||
     IsEquippedOnPath(v.value.o.avatar, r) || IsEquippedOnPath(v.value.o.profile, r))
  }

  // ---------------------------------------------------------------------
  // getItemById
  // ---------------------------------------------------------------------

  /** An avatar master item; ids are strings or absent. */
  datatype Item = Item(itemId: Option<string>, id: Option<string>, assetPath: Option<string>)

  /** `String(it?.item_id ?? it?.id ?? "")` */
  function ItemKey(it: Item): string
  {
    GetOr(Or(it.itemId, it.id), "")
  }

  /** `items.find((it) => getItemKey(it) === s)` */
  function FindByKey(items: seq<Item>, s: string): (r: Option<Item>)
    ensures r.Some? ==> exists k :: 0 <= k < |items| && items[k] == r.value &&
                          ItemKey(items[k]) == s && forall j :: 0 <= j < k ==> ItemKey(items[j]) != s
    ensures r.None? ==> forall k :: 0 <= k < |items| ==> ItemKey(items[k]) != s
  {
    if items == [] then None
    else if ItemKey(items[0]) == s then Some(items[0])
    else
      var r := FindByKey(items[1..], s);
      if r.Some? then
        var k :| 0 <= k < |items[1..]| && items[1..][k] == r.value &&
                 ItemKey(items[1..][k]) == s && forall j :: 0 <= j < k ==> ItemKey(items[1..][j]) != s;
        assert items[k + 1] == r.value;
        r
      else r
  }

  /** `getItemById(items, id)`: nothing for an empty id or a missing list,
      otherwise the first item whose key is the id. */
  function GetItemById(items: Option<seq<Item>>, id: Option<string>): (r: Option<Item>)
    ensures id.None? || id == Some("") || items.None? ==> r.None?
    ensures r.Some? ==> items.Some? && r.value in items.value && ItemKey(r.value) == id.value
    ensures r.Some? ==> exists k :: 0 <= k < |items.value| && items.value[k] == r.value &&
                          forall j :: 0 <= j < k ==> ItemKey(items.value[j]) != id.value
    ensures r.None? && items.Some? && id.Some? && id.value != "" ==>
              forall it :: it in items.value ==> ItemKey(it) != id.value
  {
    if id.None? || id.value == "" || items.None? then None
    else FindByKey(items.value, id.value)
  }

  // ---------------------------------------------------------------------
  // normalizePlayer and the lobby slots
  // ---------------------------------------------------------------------

  /** The fields `normalizePlayer` reads from a player or from its profile. */
  datatype ProfileFields = ProfileFields(clientId: Option<string>, name: Option<string>,
                                         titleName: Option<string>, title: Option<string>, titleId: Option<string>,
                                         wins: Option<Scalar>, losses: Option<Scalar>,
                                         avatar: Option<Val>, avatarEquipped: Option<Val>)

  /** A room player: its own fields and, possibly, a `profile` object. */
  datatype RawPlayer = RawPlayer(own: ProfileFields, profile: Option<ProfileFields>)

  /** `wins`/`losses` are `None` when `Number()` gives NaN. */
  datatype LobbyProfile = LobbyProfile(name: string, titleName: string, wins: Option<real>, losses: Option<real>,
                                       avatar: Option<Val>, avatarEquipped: Option<Val>)

  datatype LobbyPlayer = LobbyPlayer(clientId: Option<string>, profile: LobbyProfile)

  /** `v || w`: the first of the two that is a non-empty string. */
  function OrTruthy(v: Option<string>, w: Option<string>): (r: Option<string>)
    ensures r.Some? ==> r.value != ""
    ensures r.None? <==> (v.None? || v == Some("")) && (w.None? || w == Some(""))
  {
    if v.Some? && v.value != "" then v
    else if w.Some? && w.value != "" then w
    else None
  }

  /** `Number(v ?? 0)` */
  function CountOf(v: Option<Scalar>): (r: Option<real>)
    ensures v.None? || v == Some(SNull) ==> r == Some(0.0)
    ensures v.Some? && v.value.SNum? ==> r == Some(v.value.n)
  {
    if v.None? || v == Some(SNull) then Some(0.0) else ToNumber(v)
  }

  /** `v ?? null` for a value that may itself be `null`. */
  function NullIsNone(v: Option<Val>): (r: Option<Val>)
    ensures r != Some(VNull)
    ensures v != Some(VNull) ==> r == v
  {
    if v == Some(VNull) then None else v
  }

  /** `normalizePlayer(p)` */
  function NormalizePlayer(p: Option<RawPlayer>): (r: Option<LobbyPlayer>)
    ensures r.None? <==> p.None?
    ensures r.Some? ==> r.value.clientId.None? || r.value.clientId.value != ""
  {
    if p.None? then None
    else
      var prof := GetOr(p.value.profile, p.value.own);
      Some(LobbyPlayer(
        OrTruthy(p.value.own.clientId, prof.clientId),
        LobbyProfile(
          GetOr(prof.name, "PLAYER"),
          GetOr(Or(prof.titleName, Or(prof.title, prof.titleId)), "—"),
          CountOf(prof.wins),
          CountOf(prof.losses),
          NullIsNone(prof.avatar),
          NullIsNone(prof.avatarEquipped))))
  }

  /** The profile read is the player's `profile` when it has one, otherwise
      the player itself; a missing name is "PLAYER", and the title is the
      first of `titleName`, `title`, `titleId` that is present, or "—". */
  lemma NormalizePlayerDefaults(p: RawPlayer)
    ensures var r := NormalizePlayer(Some(p)).value;
            var prof := if p.profile.Some? then p.profile.value else p.own;
            && (prof.name.None? <==> r.profile.name == "PLAYER" && prof.name != Some("PLAYER"))
            && (prof.titleName.None? && prof.title.None? && prof.titleId.None? ==> r.profile.titleName == "—")
            && (prof.titleName.Some? ==> r.profile.titleName == prof.titleName.value)
            && (prof.titleName.None? && prof.title.Some? ==> r.profile.titleName == prof.title.value)
            && (prof.wins.None? ==> r.profile.wins == Some(0.0))
            && (p.own.clientId.Some? && p.own.clientId.value != "" ==> r.clientId == p.own.clientId)
  {
  }

  /** `raw.map(normalizePlayer).filter(Boolean)` */
  function NormalizeAll(raw: seq<Option<RawPlayer>>): (r: seq<LobbyPlayer>)
    ensures |r| <= |raw|
  {
    if raw == [] then []
    else
      (if raw[0].Some? then [NormalizePlayer(raw[0]).value] else []) + NormalizeAll(raw[1..])
  }

  /** The normalized room list is taken in order: normalizing a list in
      two parts gives the two normalized parts one after the other. */
  lemma {:induction false} NormalizeAllAppend(a: seq<Option<RawPlayer>>, b: seq<Option<RawPlayer>>)
    ensures NormalizeAll(a + b) == NormalizeAll(a) + NormalizeAll(b)
  {
    if a != [] {
      assert (a + b)[1..] == a[1..] + b;
      NormalizeAllAppend(a[1..], b);
    } else {
      assert a + b == b;
    }
  }

  /** The players kept are exactly the normalized non-null entries. */
  lemma {:induction false} NormalizeAllMembers(raw: seq<Option<RawPlayer>>)
    ensures forall i :: 0 <= i < |raw| && raw[i].Some? ==> NormalizePlayer(raw[i]).value in NormalizeAll(raw)
    ensures forall p :: p in NormalizeAll(raw) ==>
              exists i :: 0 <= i < |raw| && raw[i].Some? && NormalizePlayer(raw[i]).value == p
  {
    if raw != [] {
      var rest := raw[1..];
      NormalizeAllMembers(rest);
      forall i | 1 <= i < |raw| && raw[i].Some?
        ensures NormalizePlayer(raw[i]).value in NormalizeAll(raw)
      {
        assert raw[i] == rest[i - 1];
      }
      forall p | p in NormalizeAll(raw)
        ensures exists i :: 0 <= i < |raw| && raw[i].Some? && NormalizePlayer(raw[i]).value == p
      {
        if p !in NormalizeAll(rest) {
          assert raw[0].Some? && NormalizePlayer(raw[0]).value == p;
        } else {
          var j :| 0 <= j < |rest| && rest[j].Some? && NormalizePlayer(rest[j]).value == p;
          assert raw[j + 1] == rest[j];
        }
      }
    }
  }

  /** Only null entries are dropped. */
  lemma {:induction false} NormalizeAllKeepsPlayers(raw: seq<Option<RawPlayer>>)
    requires forall i :: 0 <= i < |raw| ==> raw[i].Some?
    ensures |NormalizeAll(raw)| == |raw|
    ensures forall i :: 0 <= i < |raw| ==> Some(NormalizeAll(raw)[i]) == NormalizePlayer(raw[i])
  {
    if raw != [] {
      NormalizeAllKeepsPlayers(raw[1..]);
    }
  }

  /** `renderPlayersFromRoom`: the first four normalised players, then empty
      (`None`) slots. */
  method LobbySlots(raw: seq<Option<RawPlayer>>) returns (slots: seq<Option<LobbyPlayer>>)
    ensures |slots| == LobbySlotCount
    ensures var normalized := NormalizeAll(raw);
            forall i :: 0 <= i < LobbySlotCount ==>
              slots[i] == (if i < |normalized| then Some(normalized[i]) else None)
  {
    var normalized := NormalizeAll(raw);
    slots := [];
    for i := 0 to LobbySlotCount
      invariant |slots| == i
      invariant forall k :: 0 <= k < i ==> slots[k] == (if k < |normalized| then Some(normalized[k]) else None)
    {
      slots := slots + [if i < |normalized| then Some(normalized[i]) else None];
    }
  }

  // ---------------------------------------------------------------------
  // buildOnlineRun
  // ---------------------------------------------------------------------

  datatype Sync = Sync(qIndex: int, startAtMs: int,
                       answersByIndex: map<int, seq<(string, BattleQuiz.AnswerMsg)>>, lastResultIndex: int)

  datatype OnlineInfo = OnlineInfo(roomId: Option<string>, hostClientId: Option<string>, myClientId: Option<string>,
                                   isHost: bool, clientIdToPi: map<string, nat>, sync: Sync)

  /** The local run created when `game:begin` arrives. */
  datatype LocalRun = LocalRun(mode: string, roomId: Option<string>, hostClientId: Option<string>,
                               players: seq<LobbyPlayer>, questionIds: seq<string>, index: int,
                               points: seq<int>, correctCounts: seq<int>, correctTimeSum: seq<real>,
                               answers: seq<BattleLogic.AnswerRecord>, online: OnlineInfo)

  function ClientIds(players: seq<LobbyPlayer>): (cids: seq<Option<string>>)
    ensures |cids| == |players|
    ensures forall i :: 0 <= i < |players| ==> cids[i] == players[i].clientId
  {
    seq(|players|, i requires 0 <= i < |players| => players[i].clientId)
  }

  /** `buildOnlineRun({roomId, hostClientId, myClientId, players, questionIds})` */
  method BuildOnlineRun(roomId: Option<string>, hostClientId: Option<string>, myClientId: Option<string>,
                        players: seq<LobbyPlayer>, questionIds: seq<string>) returns (run: LocalRun)
    ensures run.mode == OnlineMode && run.index == 0 && run.answers == []
    ensures run.points == [0, 0, 0, 0] && run.correctCounts == [0, 0, 0, 0]
    ensures run.correctTimeSum == [0.0, 0.0, 0.0, 0.0]
    ensures run.players == players && run.questionIds == questionIds
    ensures run.roomId == roomId && run.hostClientId == hostClientId
    ensures run.online.roomId == roomId && run.online.hostClientId == hostClientId && run.online.myClientId == myClientId
    ensures run.online.isHost <==> hostClientId == myClientId
    ensures run.online.sync == Sync(0, 0, map[], -1)
    ensures run.online.clientIdToPi == BattleQuiz.SeatIndex(ClientIds(players))
    ensures forall c :: c in run.online.clientIdToPi <==> Some(c) in ClientIds(players) && c != ""
    ensures forall c :: c in run.online.clientIdToPi ==>
              run.online.clientIdToPi[c] < |players| && players[run.online.clientIdToPi[c]].clientId == Some(c) &&
              forall j :: run.online.clientIdToPi[c] < j < |players| ==> players[j].clientId != Some(c)
  {
    var clientIdToPi: map<string, nat> := map[];
    var cids := ClientIds(players);
    for i := 0 to |players|
      invariant clientIdToPi == BattleQuiz.SeatIndex(cids[..i])
    {
      assert cids[..i + 1][..i] == cids[..i];
      var cid := players[i].clientId;
      if cid.Some? && cid.value != "" {
        clientIdToPi := clientIdToPi[cid.value := i];
      }
    }
    assert cids[..|players|] == cids;
    BattleQuiz.SeatIndexLastWins(cids);
    forall c | c in clientIdToPi
      ensures clientIdToPi[c] < |players| && players[clientIdToPi[c]].clientId == Some(c)
    {
      var i :| 0 <= i < |cids| && cids[i] == Some(c);
    }
    var sync := Sync(0, 0, map[], -1);
    var online := OnlineInfo(roomId, hostClientId, myClientId, hostClientId == myClientId, clientIdToPi, sync);
    run := LocalRun(OnlineMode, roomId, hostClientId, players, questionIds, 0,
                    [0, 0, 0, 0], [0, 0, 0, 0], [0.0, 0.0, 0.0, 0.0], [], online);
  }

  /** The `game:begin` payload the host emits. */
  datatype BeginPayload = BeginPayload(roomId: Option<string>, hostClientId: Option<string>,
                                       players: Option<seq<Option<RawPlayer>>>, questionIds: Option<seq<string>>)

  /** The lobby's `game:begin` handler: the run is built from the payload's
      normalised players (null entries dropped) and its question ids. */
  method OnGameBegin(begin: BeginPayload, myClientId: Option<string>) returns (run: LocalRun)
    ensures run.players == NormalizeAll(GetOr(begin.players, []))
    ensures run.questionIds == GetOr(begin.questionIds, [])
    ensures run.mode == OnlineMode && run.index == 0 && run.answers == []
    ensures run.points == [0, 0, 0, 0] && run.correctCounts == [0, 0, 0, 0]
    ensures run.correctTimeSum == [0.0, 0.0, 0.0, 0.0]
    ensures run.roomId == begin.roomId && run.hostClientId == begin.hostClientId
    ensures run.online.roomId == begin.roomId && run.online.hostClientId == begin.hostClientId &&
            run.online.myClientId == myClientId
    ensures run.online.isHost <==> begin.hostClientId == myClientId
    ensures run.online.sync == Sync(0, 0, map[], -1)
    ensures run.online.clientIdToPi == BattleQuiz.SeatIndex(ClientIds(run.players))
    ensures forall c :: c in run.online.clientIdToPi <==> Some(c) in ClientIds(run.players) && c != ""
    ensures forall c :: c in run.online.clientIdToPi ==>
              run.online.clientIdToPi[c] < |run.players| && run.players[run.online.clientIdToPi[c]].clientId == Some(c) &&
              forall j :: run.online.clientIdToPi[c] < j < |run.players| ==> run.players[j].clientId != Some(c)
  {
    var players := NormalizeAll(GetOr(begin.players, []));
    var questionIds := GetOr(begin.questionIds, []);
    run := BuildOnlineRun(begin.roomId, begin.hostClientId, myClientId, players, questionIds);
  }

  // ---------------------------------------------------------------------
  // pickRandomQuestionIds
  // ---------------------------------------------------------------------

  /** `pickRandomQuestionIds(masters, n)`: shuffles the question map's keys
      (distinct, being keys) with the draws `choose` standing for
      `Math.random()`, then keeps the first `min(n, count)`. */
  method PickRandomQuestionIds(keys: seq<string>, n: nat, choose: seq<nat>) returns (ids: seq<string>)
    requires NoDuplicates(keys)
    requires ValidDraws(|keys|, choose)
    ensures |ids| == Min(n, |keys|)
    ensures multiset(ids) <= multiset(keys)
    ensures NoDuplicates(ids)
  {
    var all := new string[|keys|](i requires 0 <= i < |keys| => keys[i]);
    assert all[..] == keys;
    ShuffleInPlace(all, choose);
    var k := Min(n, |keys|);
    ids := all[..k];
    assert all[..] == all[..k] + all[k..];
    SubMultisetDistinct(ids, keys);
  }
}

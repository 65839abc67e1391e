/** Save documents as parsed JSON: the default save, the v1 validator, the
    backfill of the `battle` record and the import path. Storage and the
    JSON text itself are not part of the model (parsing is an input). */
module SaveManager {
  import opened Common

  /** A parsed JSON value. */
  datatype Json = JNull | JBool(b: bool) | JNum(n: real) | JStr(s: string) | JArr(a: seq<Json>) | JObj(m: map<string, Json>)

  /** `j[k]` as an own property of an object; `None` is `undefined`. */
  function Field(j: Json, k: string): (r: Option<Json>)
    ensures r.Some? <==> j.JObj? && k in j.m
  {
    if j.JObj? && k in j.m then Some(j.m[k]) else None
  }

  /** `typeof v === "object" && v !== null` (arrays are objects too). */
  predicate IsObject(v: Option<Json>)
  {
    v.Some? && (v.value.JObj? || v.value.JArr?)
  }

  predicate IsNum(v: Option<Json>)
  {
    v.Some? && v.value.JNum?
  }

  predicate IsBool(v: Option<Json>)
  {
    v.Some? && v.value.JBool?
  }

  // ---------------------------------------------------------------------
  // createDefaultSave
  // ---------------------------------------------------------------------

  const ZeroWinLossJson := JObj(map["wins" := JNum(0.0), "losses" := JNum(0.0)])

  /** `createDefaultSave()`, with the clock reading and the player id as
      parameters. */
  function CreateDefaultSave(nowIso: string, playerId: string): (save: Json)
    ensures save.JObj? && Field(save, "version") == Some(JNum(1.0))
  {
    JObj(map[
      "version" := JNum(1.0),
      "meta" := JObj(map["createdAt" := JStr(nowIso), "lastPlayedAt" := JStr(nowIso), "lastBackupAt" := JStr("")]),
      "player" := JObj(map["id" := JStr(playerId), "name" := JStr("")]),
      "progress" := JObj(map["unlockedModes" := JArr([]), "stages" := JObj(map[])]),
      "economy" := JObj(map["coins" := JNum(0.0)]),
      "avatar" := JObj(map["equipped" := JObj(map["body" := JNull, "head" := JNull, "outfit" := JNull, "background" := JNull]),
                           "ownedItemIds" := JArr([])]),
      "gacha" := JObj(map["totalPulls" := JNum(0.0), "lastPulledAt" := JNull]),
      "titles" := JObj(map["equippedTitleId" := JNull, "unlockedTitleIds" := JArr([])]),
      "options" := JObj(map["bgmVolume" := JNum(0.8), "seVolume" := JNum(0.9), "vibration" := JBool(true)]),
      "battle" := JObj(map["cpu" := ZeroWinLossJson, "pvp" := ZeroWinLossJson])
    ])
  }

  // ---------------------------------------------------------------------
  // validateSaveV1
  // ---------------------------------------------------------------------

  datatype Validation = Valid | Invalid(reason: string)

  const TopLevelKeys: seq<string> := ["meta", "player", "progress", "economy", "avatar", "gacha", "titles", "options"]

  predicate HasTopLevelKeys(obj: Json)
  {
    && obj.JObj?
    && "meta" in obj.m && "player" in obj.m && "progress" in obj.m && "economy" in obj.m
    && "avatar" in obj.m && "gacha" in obj.m && "titles" in obj.m && "options" in obj.m
  }

  predicate OptionsShaped(opt: Json)
  {
    IsNum(Field(opt, "bgmVolume")) && IsNum(Field(opt, "seVolume")) && IsBool(Field(opt, "vibration"))
  }

  /** Everything the validator asks of a v1 save, as one statement. */
  predicate WellFormedV1(obj: Json)
  {
    && obj.JObj?
    && Field(obj, "version") == Some(JNum(1.0))
    && HasTopLevelKeys(obj)
    && IsObject(Field(obj, "options")) && OptionsShaped(obj.m["options"])
    && IsNum(Field(obj.m["economy"], "coins"))
    && IsObject(Field(obj.m["progress"], "stages"))
  }

  /** `validateSaveV1(obj)`: the checks in order; the first failing one
      names the reason. */
  function ValidateSaveV1(obj: Json): (v: Validation)
    ensures v == Valid <==> WellFormedV1(obj)
    ensures v == Invalid("not_object") <==> !(obj.JObj? || obj.JArr?)
    ensures v == Invalid("unsupported_version") <==>
              (obj.JObj? || obj.JArr?) && Field(obj, "version") != Some(JNum(1.0))
    ensures v == Invalid("missing_top_level_keys") <==>
              Field(obj, "version") == Some(JNum(1.0)) && !HasTopLevelKeys(obj)
    ensures v == Invalid("options_invalid") <==>
              Field(obj, "version") == Some(JNum(1.0)) && HasTopLevelKeys(obj) && !IsObject(Field(obj, "options"))
    ensures v == Invalid("options_shape_invalid") <==>
              obj.JObj? && Field(obj, "version") == Some(JNum(1.0)) && HasTopLevelKeys(obj) &&
              IsObject(Field(obj, "options")) && !OptionsShaped(obj.m["options"])
    ensures v == Invalid("economy_invalid") <==>
              obj.JObj? && Field(obj, "version") == Some(JNum(1.0)) && HasTopLevelKeys(obj) &&
              IsObject(Field(obj, "options")) && OptionsShaped(obj.m["options"]) &&
              !IsNum(Field(obj.m["economy"], "coins"))
    ensures v == Invalid("progress_stages_invalid") <==>
              obj.JObj? && Field(obj, "version") == Some(JNum(1.0)) && HasTopLevelKeys(obj) &&
              IsObject(Field(obj, "options")) && OptionsShaped(obj.m["options"]) &&
              IsNum(Field(obj.m["economy"], "coins")) && !IsObject(Field(obj.m["progress"], "stages"))
    ensures v.Invalid? ==> v.reason in ["not_object", "unsupported_version", "missing_top_level_keys", "options_invalid",
                                        "options_shape_invalid", "economy_invalid", "progress_stages_invalid"]
  {
    if !(obj.JObj? || obj.JArr?) then Invalid("not_object")
    else if Field(obj, "version") != Some(JNum(1.0)) then Invalid("unsupported_version")
    else if !HasTopLevelKeys(obj) then Invalid("missing_top_level_keys")
    else if !IsObject(Field(obj, "options")) then Invalid("options_invalid")
    else if !OptionsShaped(obj.m["options"]) then Invalid("options_shape_invalid")
    else if !IsNum(Field(obj.m["economy"], "coins")) then Invalid("economy_invalid")
    else if !IsObject(Field(obj.m["progress"], "stages")) then Invalid("progress_stages_invalid")
    else Valid
  }

  /** A save without any one of the eight top-level keys is rejected for
      that reason (when its version is 1). */
  lemma MissingKeyRejected(obj: Json, i: nat)
    requires i < |TopLevelKeys| && obj.JObj? && Field(obj, "version") == Some(JNum(1.0))
    requires TopLevelKeys[i] !in obj.m
    ensures ValidateSaveV1(obj) == Invalid("missing_top_level_keys")
  {
  }

  /** The eight keys the validator asks for are exactly `TopLevelKeys`. */
  lemma TopLevelKeysChecked(obj: Json)
    requires obj.JObj?
    ensures HasTopLevelKeys(obj) <==> forall i :: 0 <= i < |TopLevelKeys| ==> TopLevelKeys[i] in obj.m
  {
    if forall i :: 0 <= i < |TopLevelKeys| ==> TopLevelKeys[i] in obj.m {
      assert TopLevelKeys[0] in obj.m && TopLevelKeys[1] in obj.m && TopLevelKeys[2] in obj.m;
      assert TopLevelKeys[3] in obj.m && TopLevelKeys[4] in obj.m && TopLevelKeys[5] in obj.m;
      assert TopLevelKeys[6] in obj.m && TopLevelKeys[7] in obj.m;
    }
  }

  // ---------------------------------------------------------------------
  // normalizeSaveV1
  // ---------------------------------------------------------------------

  /** A `{wins, losses}` object with non-numbers replaced by 0. */
  function NormCounts(c: map<string, Json>): (r: map<string, Json>)
    ensures IsNum(Field(JObj(r), "wins")) && IsNum(Field(JObj(r), "losses"))
    ensures IsNum(Field(JObj(c), "wins")) ==> r["wins"] == c["wins"]
    ensures IsNum(Field(JObj(c), "losses")) ==> r["losses"] == c["losses"]
    ensures forall k :: k in c && k != "wins" && k != "losses" ==> k in r && r[k] == c[k]
  {
    var c1 := if IsNum(Field(JObj(c), "wins")) then c else c["wins" := JNum(0.0)];
    if IsNum(Field(JObj(c1), "losses")) then c1 else c1["losses" := JNum(0.0)]
  }

  /** One bucket (`cpu` or `pvp`) of a battle object, backfilled. */
  function NormBucket(b: map<string, Json>, key: string): map<string, Json>
  {
    if key in b && b[key].JObj? then b[key := JObj(NormCounts(b[key].m))]
    else b[key := ZeroWinLossJson]
  }

  /** The save object after `normalizeSaveV1`. */
  function NormalizedSave(save: map<string, Json>): map<string, Json>
  {
    if "battle" in save && save["battle"].JObj? then
      save["battle" := JObj(NormBucket(NormBucket(save["battle"].m, "cpu"), "pvp"))]
    else
      save["battle" := JObj(map["cpu" := ZeroWinLossJson, "pvp" := ZeroWinLossJson])]
  }

  /** A bucket with numeric wins and losses. */
  predicate BucketShaped(battle: Json, key: string)
  {
    var c := Field(battle, key);
    c.Some? && c.value.JObj? && IsNum(Field(c.value, "wins")) && IsNum(Field(c.value, "losses"))
  }

  /** `battle.cpu` and `battle.pvp` both hold numeric wins and losses. */
  predicate BattleShaped(save: map<string, Json>)
  {
    "battle" in save && BucketShaped(save["battle"], "cpu") && BucketShaped(save["battle"], "pvp")
  }

  /** After backfilling, both buckets are shaped, numbers that were there are
      kept, and nothing but `battle` changes. */
  lemma NormalizedSaveShaped(save: map<string, Json>)
    ensures var r := NormalizedSave(save);
            && BattleShaped(r)
            && (forall k :: k in save && k != "battle" ==> k in r && r[k] == save[k])
            && r.Keys == save.Keys + {"battle"}
  {
  }

  /** Numeric wins and losses already stored survive the backfill. */
  lemma NormalizedSaveKeepsNumbers(save: map<string, Json>, key: string, count: string)
    requires key in {"cpu", "pvp"} && count in {"wins", "losses"}
    requires "battle" in save
    requires var c := Field(save["battle"], key); c.Some? && c.value.JObj? && IsNum(Field(c.value, count))
    ensures NormalizedSave(save)["battle"].m[key].m[count] == save["battle"].m[key].m[count]
  {
  }

  /** A save whose buckets are already shaped is left exactly as it is. */
  lemma {:induction false} NormalizedSaveNoop(save: map<string, Json>)
    requires BattleShaped(save)
    ensures NormalizedSave(save) == save
  {
    var b := save["battle"].m;
    assert NormCounts(b["cpu"].m) == b["cpu"].m;
    assert NormCounts(b["pvp"].m) == b["pvp"].m;
    assert NormBucket(b, "cpu") == b;
    assert NormBucket(b, "pvp") == b;
  }

  /** `normalizeSaveV1` is idempotent. */
  lemma NormalizedSaveIdempotent(save: map<string, Json>)
    ensures NormalizedSave(NormalizedSave(save)) == NormalizedSave(save)
  {
    NormalizedSaveShaped(save);
    NormalizedSaveNoop(NormalizedSave(save));
  }

  /** A validated save object, backfilled in place. */
  class SaveDoc {
    var fields: map<string, Json>

    constructor (fields: map<string, Json>)
      ensures this.fields == fields
    {
      this.fields := fields;
    }

    /** `normalizeSaveV1(save)`: returns whether anything was written, which
        is exactly whether the save changed; the result is
        `NormalizedSave` of the old save. */
    method Normalize() returns (changed: bool)
      modifies this
      ensures fields == NormalizedSave(old(fields))
      ensures changed <==> fields != old(fields)
    {
      if !("battle" in fields && fields["battle"].JObj?) {
        fields := fields["battle" := JObj(map["cpu" := ZeroWinLossJson, "pvp" := ZeroWinLossJson])];
        return true;
      }
      var b0 := fields["battle"].m;
      var b1, c1 := NormalizeBucket(b0, "cpu");
      var b2, c2 := NormalizeBucket(b1, "pvp");
      changed := c1 || c2;
      fields := fields["battle" := JObj(b2)];
      if !changed {
        assert b1 == b0;
        assert b2 == b1;
        assert fields == old(fields);
      } else if c1 {
        assert "cpu" !in b0 || b2["cpu"] != b0["cpu"];
      } else {
        assert "pvp" !in b0 || b2["pvp"] != b0["pvp"];
      }
    }
  }

  /** One bucket of `normalizeSaveV1`: a missing or non-object bucket is
      replaced by zeros, and each non-numeric count is set to 0. */
  method NormalizeBucket(b: map<string, Json>, key: string) returns (nb: map<string, Json>, changed: bool)
    ensures nb == NormBucket(b, key)
    ensures nb.Keys == b.Keys + {key}
    ensures forall k :: k in b && k != key ==> nb[k] == b[k]
    ensures changed <==> key !in b || nb[key] != b[key]
  {
    if !(key in b && b[key].JObj?) {
      return b[key := ZeroWinLossJson], true;
    }
    var c := b[key].m;
    changed := false;
    if !IsNum(Field(JObj(c), "wins")) {
      c := c["wins" := JNum(0.0)];
      changed := true;
    }
    if !IsNum(Field(JObj(c), "losses")) {
      c := c["losses" := JNum(0.0)];
      changed := true;
    }
    nb := b[key := JObj(c)];
  }

  /** The default save validates and needs no backfill. */
  lemma DefaultSaveValid(nowIso: string, playerId: string)
    ensures ValidateSaveV1(CreateDefaultSave(nowIso, playerId)) == Valid
    ensures NormalizedSave(CreateDefaultSave(nowIso, playerId).m) == CreateDefaultSave(nowIso, playerId).m
  {
    var save := CreateDefaultSave(nowIso, playerId);
    DefaultSaveWellFormed(nowIso, playerId);
    DefaultSaveBattleShaped(nowIso, playerId);
    NormalizedSaveNoop(save.m);
  }

  lemma DefaultSaveWellFormed(nowIso: string, playerId: string)
    ensures WellFormedV1(CreateDefaultSave(nowIso, playerId))
  {
    var save := CreateDefaultSave(nowIso, playerId);
    assert HasTopLevelKeys(save);
    assert OptionsShaped(save.m["options"]);
  }

  lemma DefaultSaveBattleShaped(nowIso: string, playerId: string)
    ensures BattleShaped(CreateDefaultSave(nowIso, playerId).m)
  {
    var battle := CreateDefaultSave(nowIso, playerId).m["battle"];
    assert Field(battle, "cpu") == Some(ZeroWinLossJson);
    assert Field(battle, "pvp") == Some(ZeroWinLossJson);
  }

  // ---------------------------------------------------------------------
  // importSaveJson
  // ---------------------------------------------------------------------

  datatype ImportResult = ImportFailed(reason: string) | Imported(save: map<string, Json>)

  /** `importSaveJson(jsonText)` given the parse result (`None` when the
      text is not JSON): a parse error, the validator's reason, or the
      backfilled save. */
  method ImportSaveJson(parsed: Option<Json>) returns (r: ImportResult)
    ensures parsed.None? ==> r == ImportFailed("json_parse_error")
    ensures parsed.Some? && ValidateSaveV1(parsed.value).Invalid? ==> r == ImportFailed(ValidateSaveV1(parsed.value).reason)
    ensures parsed.Some? && ValidateSaveV1(parsed.value) == Valid ==>
              r == Imported(NormalizedSave(parsed.value.m)) && BattleShaped(r.save)
  {
    if parsed.None? {
      return ImportFailed("json_parse_error");
    }
    var v := ValidateSaveV1(parsed.value);
    if v.Invalid? {
      return ImportFailed(v.reason);
    }
    var doc := new SaveDoc(parsed.value.m);
    var _ := doc.Normalize();
    NormalizedSaveShaped(parsed.value.m);
    return Imported(doc.fields);
  }
}

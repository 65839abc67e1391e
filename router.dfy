/** The hash router: `location.hash` is split into path parts and query
    parameters, and the first part picks the screen. `decodeURIComponent`
    is taken to be the identity. */
module Router {
  import opened Common

  /** `{ parts, params }` */
  datatype Route = Route(parts: seq<string>, params: map<string, string>)

  /** `location.hash || "#top"` */
  function HashOrTop(hash: string): (h: string)
    ensures hash == "" ==> h == "#top"
    ensures hash != "" ==> h == hash
  {
    if hash == "" then "#top" else hash
  }

  /** `h.replace(/^#/, "")`: one leading '#' is removed. */
  function StripHash(h: string): (s: string)
    ensures |h| > 0 && h[0] == '#' ==> s == h[1..]
    ensures (|h| == 0 || h[0] != '#') ==> s == h
  {
    if |h| > 0 && h[0] == '#' then h[1..] else h
  }

  /** `.filter(Boolean)` on strings: the non-empty ones, in order. */
  function NonEmpty(xs: seq<string>): (r: seq<string>)
    ensures forall x :: x in r <==> x in xs && x != ""
    ensures |r| <= |xs|
  {
    if xs == [] then []
    else (if xs[0] == "" then [] else [xs[0]]) + NonEmpty(xs[1..])
  }

  /** Filtering keeps one part exactly when it is non-empty. */
  lemma NonEmptySingle(x: string)
    ensures NonEmpty([x]) == if x == "" then [] else [x]
  {
    assert [x][1..] == [];
  }

  /** Filtering keeps the order: the parts of `a + b` are those of `a`, then those of `b`. */
  lemma {:induction false} NonEmptyAppend(a: seq<string>, b: seq<string>)
    ensures NonEmpty(a + b) == NonEmpty(a) + NonEmpty(b)
  {
    if a != [] {
      assert (a + b)[1..] == a[1..] + b;
      NonEmptyAppend(a[1..], b);
    } else {
      assert a + b == b;
    }
  }

  /** The key of one `k=v` pair: the text before the first '='. */
  function PairKey(kv: string): string
  {
    Split(kv, '=')[0]
  }

  /** The value of one `k=v` pair: the text between the first and the
      second '=', or "" when there is no '='. */
  function PairValue(kv: string): string
  {
    var s := Split(kv, '=');
    if |s| > 1 then s[1] else ""
  }

  /** The parameters the loop builds from the pairs, each pair overwriting
      an earlier one with the same key. */
  function ParamsOf(pairs: seq<string>): map<string, string>
  {
    if pairs == [] then map[]
    else
      var last := pairs[|pairs| - 1];
      ParamsOf(pairs[..|pairs| - 1])[PairKey(last) := PairValue(last)]
  }

  /** The parameters of the optional query: none when it is missing or
      empty. */
  function QueryParams(query: Option<string>): (m: map<string, string>)
    ensures query.None? || query == Some("") ==> m == map[]
  {
    if query.None? || query.value == "" then map[] else ParamsOf(Split(query.value, '&'))
  }

  /** The text after the first '?' up to the second, if there is a '?'. */
  function QueryOf(pieces: seq<string>): Option<string>
  {
    if |pieces| > 1 then Some(pieces[1]) else None
  }

  /** What `parseHash` returns for a given `location.hash`. */
  function HashRoute(hash: string): Route
  {
    var pieces := Split(StripHash(HashOrTop(hash)), '?');
    Route(NonEmpty(Split(pieces[0], '/')), QueryParams(QueryOf(pieces)))
  }

  /** The parameter loop of `parseHash`. */
  method FillParams(query: Option<string>) returns (params: map<string, string>)
    ensures params == QueryParams(query)
  {
    params := map[];
    if query.None? || query.value == "" {
      return;
    }
    var pairs := Split(query.value, '&');
    var i := 0;
    while i < |pairs|
      invariant 0 <= i <= |pairs|
      invariant params == ParamsOf(pairs[..i])
    {
      var kv := Split(pairs[i], '=');
      params := params[kv[0] := if |kv| > 1 then kv[1] else ""];
      assert pairs[..i + 1][..i] == pairs[..i];
      i := i + 1;
    }
    assert pairs[..|pairs|] == pairs;
  }

  /** `parseHash` */
  method ParseHash(hash: string) returns (r: Route)
    ensures r == HashRoute(hash)
  {
    var h := if hash == "" then "#top" else hash;
    var body := if |h| > 0 && h[0] == '#' then h[1..] else h;
    var pieces := Split(body, '?');
    var parts := NonEmpty(Split(pieces[0], '/'));
    var query := if |pieces| > 1 then Some(pieces[1]) else None;
    var params := FillParams(query);
    r := Route(parts, params);
  }

  /** A key is present exactly when some pair has it. */
  lemma {:induction false} ParamsKeys(pairs: seq<string>)
    ensures forall k :: k in ParamsOf(pairs) <==> exists i :: 0 <= i < |pairs| && PairKey(pairs[i]) == k
  {
    if pairs != [] {
      var init := pairs[..|pairs| - 1];
      ParamsKeys(init);
      forall k | k in ParamsOf(pairs)
        ensures exists i :: 0 <= i < |pairs| && PairKey(pairs[i]) == k
      {
        if k != PairKey(pairs[|pairs| - 1]) {
          assert ParamsOf(pairs) == ParamsOf(init)[PairKey(pairs[|pairs| - 1]) := PairValue(pairs[|pairs| - 1])];
          assert k in ParamsOf(init);
          var i :| 0 <= i < |init| && PairKey(init[i]) == k;
          assert pairs[i] == init[i];
        }
      }
      forall k | exists i :: 0 <= i < |pairs| && PairKey(pairs[i]) == k
        ensures k in ParamsOf(pairs)
      {
        var i :| 0 <= i < |pairs| && PairKey(pairs[i]) == k;
        if i < |init| {
          assert init[i] == pairs[i];
        }
      }
    }
  }

  /** A key's value is the one of the last pair with that key. */
  lemma {:induction false} ParamsLastWins(pairs: seq<string>, i: nat)
    requires i < |pairs|
    requires forall j :: i < j < |pairs| ==> PairKey(pairs[j]) != PairKey(pairs[i])
    ensures PairKey(pairs[i]) in ParamsOf(pairs)
    ensures ParamsOf(pairs)[PairKey(pairs[i])] == PairValue(pairs[i])
  {
    var init := pairs[..|pairs| - 1];
    if i < |init| {
      forall j | i < j < |init|
        ensures PairKey(init[j]) != PairKey(init[i])
      {
        assert init[j] == pairs[j];
      }
      ParamsLastWins(init, i);
      assert init[i] == pairs[i];
    }
  }

  /** A pair without '=' is a key with the empty value. */
  lemma PairWithoutValue(kv: string)
    requires '=' !in kv
    ensures PairKey(kv) == kv && PairValue(kv) == ""
  {
    SplitNoSep(kv, '=');
  }

  /** A pair `k=v` gives back its key and value. */
  lemma PairRoundTrip(k: string, v: string)
    requires '=' !in k && '=' !in v
    ensures PairKey(k + "=" + v) == k && PairValue(k + "=" + v) == v
  {
    SplitPrefix(k, v, '=');
    SplitNoSep(v, '=');
  }

  /** The hashes the screens navigate to, `#name` and `#name?key=value`,
      parse back into their name and parameter. */
  lemma HashRoundTrip(name: string, k: string, v: string)
    requires name != "" && '/' !in name && '?' !in name
    requires '?' !in k && '&' !in k && '=' !in k
    requires '?' !in v && '&' !in v && '=' !in v
    ensures HashRoute("#" + name) == Route([name], map[])
    ensures HashRoute("#" + name + "?" + k + "=" + v) == Route([name], map[k := v])
  {
    SplitNoSep(name, '?');
    SplitNoSep(name, '/');
    assert ("#" + name)[1..] == name;
    var q := k + "=" + v;
    assert '?' !in q && '&' !in q;
    var h := "#" + name + "?" + q;
    assert "#" + name + "?" + k + "=" + v == h;
    assert StripHash(HashOrTop(h)) == name + ['?'] + q;
    SplitPrefix(name, q, '?');
    SplitNoSep(q, '?');
    var pieces := Split(name + ['?'] + q, '?');
    assert pieces == [name, q];
    assert NonEmpty(Split(pieces[0], '/')) == [name];
    assert QueryOf(pieces) == Some(q) && q != "";
    SplitNoSep(q, '&');
    PairRoundTrip(k, v);
    assert ParamsOf([q]) == map[k := v] by {
      assert [q][..0] == [];
    }
    assert QueryParams(Some(q)) == map[k := v];
  }

  /** The screens `route` can show. */
  datatype Screen =
    | Top | Home | Quiz | Result | Options | AvatarScreen | GachaList | GachaDraw
    | TimeAttack | EndlessMode | Placeholder
    /** `goto("#top")` for an unknown first part */
    | RedirectTop

  /** The screen each first part names. */
  const ScreenNames: map<string, Screen> := map[
    "top" := Top, "home" := Home, "quiz" := Quiz, "result" := Result, "options" := Options,
    "avatar" := AvatarScreen, "gacha" := GachaList, "gachaDraw" := GachaDraw,
    "timeAttack" := TimeAttack, "endless" := EndlessMode, "battle" := Placeholder]

  /** `route`'s chain of tests on `parts[0]`: no parts or "top" is the top
      screen, a known name its screen, "battle" the placeholder, and any
      other name a redirect to "#top". */
  function Dispatch(parts: seq<string>): (s: Screen)
    ensures parts == [] ==> s == Top
    ensures parts != [] ==> s == (if parts[0] in ScreenNames then ScreenNames[parts[0]] else RedirectTop)
  {
    if parts == [] || parts[0] == "top" then Top
    else if parts[0] == "home" then Home
    else if parts[0] == "quiz" then Quiz
    else if parts[0] == "result" then Result
    else if parts[0] == "options" then Options
    else if parts[0] == "avatar" then AvatarScreen
    else if parts[0] == "gacha" then GachaList
    else if parts[0] == "gachaDraw" then GachaDraw
    else if parts[0] == "timeAttack" then TimeAttack
    else if parts[0] == "endless" then EndlessMode
    else if parts[0] == "battle" then Placeholder
    else RedirectTop
  }

  /** An empty hash shows the top screen, and so does the redirect an
      unknown name leads to. */
  lemma EmptyHashIsTop()
    ensures HashRoute("") == Route(["top"], map[])
    ensures Dispatch(HashRoute("").parts) == Top
    ensures Dispatch(HashRoute("#top").parts) == Top
  {
    HashRoundTrip("top", "", "");
  }
}

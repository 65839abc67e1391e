/** Small building blocks shared by every screen module: the optional value
    that stands for JavaScript's null/undefined, the scalar values found in
    master data, JavaScript's `Number()` conversion restricted to decimal
    integers, `String.prototype.split` on one character, and the
    "insert into a Set, then Array.from" idiom the game uses for id lists. */
module Common {

  /** `None` is a JavaScript `null` or `undefined` (the two `??` treats alike). */
  datatype Option<+T> = None | Some(value: T)

  /** `a ?? b` */
  function Or<T>(a: Option<T>, b: Option<T>): (r: Option<T>)
    ensures a.Some? ==> r == a
    ensures a.None? ==> r == b
  {
    if a.Some? then a else b
  }

  /** `a ?? d` for a default value. */
  function GetOr<T>(a: Option<T>, d: T): (r: T)
    ensures a.Some? ==> r == a.value
    ensures a.None? ==> r == d
  {
    if a.Some? then a.value else d
  }

  /** Reading `arr[k] ?? 0` from a sparse numeric array or dictionary. */
  function Get0<K>(m: map<K, int>, k: K): (r: int)
    ensures k in m ==> r == m[k]
    ensures k !in m ==> r == 0
  {
    if k in m then m[k] else 0
  }

  function Max(a: int, b: int): (r: int)
    ensures r >= a && r >= b && (r == a || r == b)
  {
    if a >= b then a else b
  }

  function Min(a: int, b: int): (r: int)
    ensures r <= a && r <= b && (r == a || r == b)
  {
    if a <= b then a else b
  }

  /** A scalar JSON value as it appears in master data. */
  datatype Scalar = SNum(n: real) | SStr(s: string) | SBool(b: bool) | SNull

  predicate IsDigit(c: char) { '0' <= c <= '9' }

  predicate AllDigits(s: string) { forall i :: 0 <= i < |s| ==> IsDigit(s[i]) }

  /** The value of a string of decimal digits, read most significant first. */
  function DigitsValue(s: string): (v: nat)
    requires AllDigits(s)
  {
    if s == [] then 0
    else DigitsValue(s[..|s| - 1]) * 10 + (s[|s| - 1] - '0') as nat
  }

  /** JavaScript `Number(s)` for the strings the game produces: the empty
      string is 0, an optionally signed run of decimal digits is that
      integer, and everything else is NaN (`None`). */
  function ParseNumber(s: string): (r: Option<real>)
    ensures s == "" ==> r == Some(0.0)
    ensures AllDigits(s) && s != "" ==> r == Some(DigitsValue(s) as real)
  {
    if s == "" then Some(0.0)
    else if AllDigits(s) then Some(DigitsValue(s) as real)
    else if |s| > 1 && (s[0] == '-' || s[0] == '+') && AllDigits(s[1..]) then
      var v := DigitsValue(s[1..]) as real;
      Some(if s[0] == '-' then -v else v)
    else None
  }

  /** Decimal rendering of a natural number (JavaScript `String(n)`). */
  function NatToString(n: nat): (s: string)
    ensures s != [] && AllDigits(s)
  {
    if n < 10 then [('0' as int + n) as char]
    else NatToString(n / 10) + [('0' as int + n % 10) as char]
  }

  lemma {:induction false} DigitsValueOfNatToString(n: nat)
    ensures DigitsValue(NatToString(n)) == n
  {
    var s := NatToString(n);
    if n >= 10 {
      DigitsValueOfNatToString(n / 10);
      assert s[..|s| - 1] == NatToString(n / 10);
    }
  }

  /** Rendering a count and reading it back with `Number()` is the identity. */
  lemma ParseNumberRoundTrip(n: nat)
    ensures ParseNumber(NatToString(n)) == Some(n as real)
  {
    DigitsValueOfNatToString(n);
  }

  /** JavaScript `Number(v)` for an optional scalar; `None` in the result is NaN. */
  function ToNumber(v: Option<Scalar>): (r: Option<real>)
    ensures v == Some(SNull) ==> r == Some(0.0)
    ensures v.None? ==> r.None?
    ensures (v.Some? && v.value.SNum?) ==> r == Some(v.value.n)
  {
    match v
    case None => None
    case Some(SNum(n)) => Some(n)
    case Some(SStr(s)) => ParseNumber(s)
    case Some(SBool(b)) => Some(if b then 1.0 else 0.0)
    case Some(SNull) => Some(0.0)
  }

  /** `s.split(c)` for a one-character separator. */
  function Split(s: string, c: char): (parts: seq<string>)
    ensures |parts| >= 1
  {
    if s == [] then [""]
    else
      var rest := Split(s[1..], c);
      if s[0] == c then [""] + rest else [[s[0]] + rest[0]] + rest[1..]
  }

  /** `parts.join(c)` */
  function Join(parts: seq<string>, c: char): string
    requires |parts| >= 1
  {
    if |parts| == 1 then parts[0] else parts[0] + [c] + Join(parts[1..], c)
  }

  lemma {:induction false} SplitPartsFree(s: string, c: char)
    ensures forall i :: 0 <= i < |Split(s, c)| ==> c !in Split(s, c)[i]
  {
    if s != [] {
      SplitPartsFree(s[1..], c);
    }
  }

  lemma {:induction false} JoinSplit(s: string, c: char)
    ensures Join(Split(s, c), c) == s
  {
    if s != [] {
      var rest := Split(s[1..], c);
      JoinSplit(s[1..], c);
      if s[0] == c {
        assert Split(s, c) == [""] + rest;
      } else {
        var parts := [[s[0]] + rest[0]] + rest[1..];
        if |rest| == 1 {
          assert Join(parts, c) == [s[0]] + rest[0];
        } else {
          assert parts[1..] == rest[1..];
          assert Join(parts, c) == [s[0]] + (rest[0] + [c] + Join(rest[1..], c));
        }
      }
    }
  }

  lemma {:induction false} SplitJoin(parts: seq<string>, c: char)
    requires |parts| >= 1
    requires forall i :: 0 <= i < |parts| ==> c !in parts[i]
    ensures Split(Join(parts, c), c) == parts
  {
    if |parts| == 1 {
      SplitNoSep(parts[0], c);
    } else {
      SplitJoin(parts[1..], c);
      SplitPrefix(parts[0], Join(parts[1..], c), c);
    }
  }

  lemma {:induction false} SplitNoSep(s: string, c: char)
    requires c !in s
    ensures Split(s, c) == [s]
  {
    if s != [] {
      assert s[0] != c && c !in s[1..];
      SplitNoSep(s[1..], c);
      assert Split(s, c) == [[s[0]] + s[1..]];
      assert [s[0]] + s[1..] == s;
    }
  }

  lemma {:induction false} SplitPrefix(p: string, t: string, c: char)
    requires c !in p
    ensures Split(p + [c] + t, c) == [p] + Split(t, c)
  {
    if p == [] {
      assert p + [c] + t == [c] + t;
      assert ([c] + t)[1..] == t;
    } else {
      var u := p + [c] + t;
      SplitPrefix(p[1..], t, c);
      assert u[1..] == p[1..] + [c] + t;
      assert u[0] == p[0] != c;
      assert Split(u, c) == [[p[0]] + Split(u[1..], c)[0]] + Split(u[1..], c)[1..];
      assert [p[0]] + p[1..] == p;
    }
  }

  /** The text before the first `c` (the whole string if there is none). */
  lemma {:induction false} SplitHead(s: string, c: char, k: nat)
    requires k <= |s| && c !in s[..k] && (k == |s| || s[k] == c)
    ensures Split(s, c)[0] == s[..k]
  {
    if k > 0 {
      SplitHead(s[1..], c, k - 1);
      assert s[1..][..k - 1] == s[..k][1..];
    }
  }

  predicate NoDuplicates<T(==)>(s: seq<T>)
  {
    forall i, j :: 0 <= i < j < |s| ==> s[i] != s[j]
  }

  /** Adding `xs` one by one to a JavaScript Set that already holds `acc`
      (in insertion order) and reading it back with `Array.from`. */
  function AddAll<T(==)>(acc: seq<T>, xs: seq<T>): (r: seq<T>)
    ensures acc <= r
    decreases |xs|
  {
    if xs == [] then acc
    else if xs[0] in acc then AddAll(acc, xs[1..])
    else AddAll(acc + [xs[0]], xs[1..])
  }

  lemma {:induction false} AddAllProperties<T>(acc: seq<T>, xs: seq<T>)
    requires NoDuplicates(acc)
    ensures NoDuplicates(AddAll(acc, xs))
    ensures forall x :: x in AddAll(acc, xs) <==> x in acc || x in xs
    decreases |xs|
  {
    if xs != [] {
      if xs[0] in acc {
        AddAllProperties(acc, xs[1..]);
      } else {
        AddAllProperties(acc + [xs[0]], xs[1..]);
      }
    }
  }

  /** `Array.from(new Set(xs))`: the first occurrences, in order. */
  function Dedup<T(==)>(xs: seq<T>): seq<T>
  {
    AddAll([], xs)
  }

  lemma DedupProperties<T>(xs: seq<T>)
    ensures NoDuplicates(Dedup(xs))
    ensures forall x :: x in Dedup(xs) <==> x in xs
  {
    AddAllProperties([], xs);
  }

  lemma {:induction false} AddAllNoop<T>(acc: seq<T>, xs: seq<T>)
    requires forall x :: x in xs ==> x in acc
    ensures AddAll(acc, xs) == acc
  {
    if xs != [] {
      AddAllNoop(acc, xs[1..]);
    }
  }

  /** A list without repeats is unchanged by the Set round trip. */
  lemma {:induction false} DedupOfDistinct<T>(xs: seq<T>)
    requires NoDuplicates(xs)
    ensures Dedup(xs) == xs
  {
    DedupPrefix(xs, |xs|);
    assert xs[..|xs|] == xs;
  }

  lemma {:induction false} DedupPrefix<T>(xs: seq<T>, k: nat)
    requires NoDuplicates(xs) && k <= |xs|
    ensures AddAll([], xs[..k]) == xs[..k]
  {
    if k > 0 {
      DedupPrefix(xs, k - 1);
      AddAllSnoc([], xs[..k - 1], xs[k - 1]);
      assert xs[..k] == xs[..k - 1] + [xs[k - 1]];
    }
  }

  lemma {:induction false} AddAllSnoc<T>(acc: seq<T>, xs: seq<T>, x: T)
    ensures AddAll(acc, xs + [x]) ==
            (var a := AddAll(acc, xs); if x in a then a else a + [x])
    decreases |xs|
  {
    if xs == [] {
      assert [x][1..] == [];
    } else {
      assert (xs + [x])[1..] == xs[1..] + [x];
      if xs[0] in acc {
        AddAllSnoc(acc, xs[1..], x);
      } else {
        AddAllSnoc(acc + [xs[0]], xs[1..], x);
      }
    }
  }

  // ---------------------------------------------------------------------
  // Array.prototype.sort with a numeric key: a stable ascending sort
  // ---------------------------------------------------------------------

  /** Inserts `x` in front of the first element whose key is not smaller;
      `x` therefore precedes the equal-key elements that follow it. */
  function InsertByKey<T>(x: T, s: seq<T>, key: T -> real): (r: seq<T>)
    ensures multiset(r) == multiset(s) + multiset{x}
    ensures |r| == |s| + 1
  {
    if s == [] || key(x) <= key(s[0]) then [x] + s
    else
      assert s == [s[0]] + s[1..];
      [s[0]] + InsertByKey(x, s[1..], key)
  }

  /** `[...s].sort((a, b) => key(a) - key(b))`: a fresh sequence, the input
      untouched. */
  function SortByKey<T>(s: seq<T>, key: T -> real): (r: seq<T>)
    ensures multiset(r) == multiset(s)
    ensures |r| == |s|
  {
    if s == [] then []
    else
      assert s == [s[0]] + s[1..];
      InsertByKey(s[0], SortByKey(s[1..], key), key)
  }

  predicate AscendingBy<T>(s: seq<T>, key: T -> real)
  {
    forall i, j :: 0 <= i < j < |s| ==> key(s[i]) <= key(s[j])
  }

  lemma {:induction false} InsertByKeyAscending<T>(x: T, s: seq<T>, key: T -> real)
    requires AscendingBy(s, key)
    ensures AscendingBy(InsertByKey(x, s, key), key)
  {
    if s != [] && key(x) > key(s[0]) {
      var rest := InsertByKey(x, s[1..], key);
      InsertByKeyAscending(x, s[1..], key);
      var r := [s[0]] + rest;
      assert InsertByKey(x, s, key) == r;
      forall k | 0 <= k < |s[1..]| ensures key(s[0]) <= key(s[1..][k]) {
        assert s[1..][k] == s[k + 1];
      }
      InsertByKeyLowerBound(x, s[1..], key, key(s[0]));
      ConsAscending(s[0], rest, key);
    }
  }

  /** A lower bound of an ascending sequence can go in front of it. */
  lemma ConsAscending<T>(h: T, s: seq<T>, key: T -> real)
    requires AscendingBy(s, key)
    requires forall k :: 0 <= k < |s| ==> key(h) <= key(s[k])
    ensures AscendingBy([h] + s, key)
  {
    var r := [h] + s;
    forall i, j | 0 <= i < j < |r|
      ensures key(r[i]) <= key(r[j])
    {
      assert r[j] == s[j - 1];
      if i > 0 {
        assert r[i] == s[i - 1];
      }
    }
  }

  /** Inserting keeps a lower bound every key already respects. */
  lemma InsertByKeyLowerBound<T>(x: T, s: seq<T>, key: T -> real, b: real)
    requires b <= key(x)
    requires forall k :: 0 <= k < |s| ==> b <= key(s[k])
    ensures forall k :: 0 <= k < |InsertByKey(x, s, key)| ==> b <= key(InsertByKey(x, s, key)[k])
  {
    var r := InsertByKey(x, s, key);
    forall k | 0 <= k < |r| ensures b <= key(r[k]) {
      assert r[k] in multiset(s) + multiset{x};
      if r[k] != x {
        var j :| 0 <= j < |s| && s[j] == r[k];
      }
    }
  }

  lemma {:induction false} SortByKeyAscending<T>(s: seq<T>, key: T -> real)
    ensures AscendingBy(SortByKey(s, key), key)
  {
    if s != [] {
      SortByKeyAscending(s[1..], key);
      InsertByKeyAscending(s[0], SortByKey(s[1..], key), key);
    }
  }

  /** The elements whose key is exactly `t`, in order. */
  function WithKey<T>(s: seq<T>, key: T -> real, t: real): seq<T>
  {
    if s == [] then []
    else (if key(s[0]) == t then [s[0]] else []) + WithKey(s[1..], key, t)
  }

  lemma {:induction false} InsertByKeyWithKey<T>(x: T, s: seq<T>, key: T -> real, t: real)
    ensures WithKey(InsertByKey(x, s, key), key, t) ==
            (if key(x) == t then [x] + WithKey(s, key, t) else WithKey(s, key, t))
  {
    var r := InsertByKey(x, s, key);
    if s == [] || key(x) <= key(s[0]) {
      assert r == [x] + s;
      assert r[1..] == s;
    } else {
      var rest := InsertByKey(x, s[1..], key);
      assert r == [s[0]] + rest;
      assert r[0] == s[0] && r[1..] == rest;
      InsertByKeyWithKey(x, s[1..], key, t);
      if key(s[0]) == t {
        assert key(x) != t;
        assert WithKey(r, key, t) == [s[0]] + WithKey(rest, key, t);
        assert WithKey(s, key, t) == [s[0]] + WithKey(s[1..], key, t);
      } else {
        assert WithKey(r, key, t) == WithKey(rest, key, t);
        assert WithKey(s, key, t) == WithKey(s[1..], key, t);
      }
    }
  }

  /** Stability: for every key value, the elements with that key keep their
      input order. */
  lemma {:induction false} SortByKeyStable<T>(s: seq<T>, key: T -> real, t: real)
    ensures WithKey(SortByKey(s, key), key, t) == WithKey(s, key, t)
  {
    if s != [] {
      SortByKeyStable(s[1..], key, t);
      InsertByKeyWithKey(s[0], SortByKey(s[1..], key), key, t);
    }
  }

  /** No two elements share an identity. */
  predicate DistinctBy<T, U(==)>(s: seq<T>, id: T -> U)
  {
    forall i, j :: 0 <= i < j < |s| ==> id(s[i]) != id(s[j])
  }

  lemma {:induction false} InsertByKeyDistinct<T, U>(x: T, s: seq<T>, key: T -> real, id: T -> U)
    requires DistinctBy(s, id)
    requires forall e :: e in s ==> id(e) != id(x)
    ensures DistinctBy(InsertByKey(x, s, key), id)
  {
    if s != [] && key(x) > key(s[0]) {
      InsertByKeyDistinct(x, s[1..], key, id);
      var r := InsertByKey(x, s, key);
      forall k | 1 <= k < |r|
        ensures id(r[k]) != id(s[0])
      {
        assert r[k] in multiset(s[1..]) + multiset{x};
        assert r[k] in s[1..] || r[k] == x;
      }
    }
  }

  lemma {:induction false} SortByKeyDistinct<T, U>(s: seq<T>, key: T -> real, id: T -> U)
    requires DistinctBy(s, id)
    ensures DistinctBy(SortByKey(s, key), id)
  {
    if s != [] {
      SortByKeyDistinct(s[1..], key, id);
      forall e | e in SortByKey(s[1..], key)
        ensures id(e) != id(s[0])
      {
        assert e in multiset(s[1..]);
      }
      InsertByKeyDistinct(s[0], SortByKey(s[1..], key), key, id);
    }
  }

  // ---------------------------------------------------------------------
  // The Fisher-Yates shuffle with Math.random supplied by the caller
  // ---------------------------------------------------------------------

  /** `for (let i = a.length - 1; i > 0; i--) { j = floor(random * (i + 1)); swap(a[i], a[j]) }`
      where `choose[t]` is the `j` drawn in round `t` (for `i = a.Length - 1 - t`). */
  predicate ValidDraws(n: nat, choose: seq<nat>)
  {
    |choose| == (if n == 0 then 0 else n - 1) &&
    forall t :: 0 <= t < |choose| ==> choose[t] <= n - 1 - t
  }

  method ShuffleInPlace<T>(a: array<T>, choose: seq<nat>)
    requires ValidDraws(a.Length, choose)
    modifies a
    ensures multiset(a[..]) == multiset(old(a[..]))
  {
    var i := a.Length - 1;
    while i > 0
      invariant -1 <= i < a.Length
      invariant multiset(a[..]) == multiset(old(a[..]))
    {
      var j := choose[a.Length - 1 - i];
      a[i], a[j] := a[j], a[i];
      i := i - 1;
    }
  }

  lemma {:induction false} NoDuplicatesCount<T>(b: seq<T>, x: T)
    requires NoDuplicates(b)
    ensures multiset(b)[x] <= 1
  {
    if b != [] {
      var init := b[..|b| - 1];
      assert b == init + [b[|b| - 1]];
      assert NoDuplicates(init);
      NoDuplicatesCount(init, x);
      if b[|b| - 1] == x {
        assert x !in init;
      }
    }
  }

  /** Taking part of a list without repeats keeps it free of repeats. */
  lemma SubMultisetDistinct<T>(a: seq<T>, b: seq<T>)
    requires multiset(a) <= multiset(b) && NoDuplicates(b)
    ensures NoDuplicates(a)
  {
    forall i, j | 0 <= i < j < |a|
      ensures a[i] != a[j]
    {
      if a[i] == a[j] {
        var x := a[i];
        assert a == a[..i] + [a[i]] + a[i + 1..j] + [a[j]] + a[j + 1..];
        assert multiset(a)[x] >= 2;
        NoDuplicatesCount(b, x);
      }
    }
  }
}

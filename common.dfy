/** Shared vocabulary of the dashboard model: optional values, the sequence
    folds and filters the pages apply to API responses, the ASCII text
    normalisations the forms apply to symbols and queries, the decimal
    rendering used when numbers are put into URLs and messages, and the
    in-place descending sort the pages call on freshly built arrays. */
module Common {

  /** A JSON field that may be absent (`undefined`/`null`). */
  datatype Option<+T> = None | Some(value: T) {
    /** `x || d` on a value whose present form is never falsy. */
    function GetOr(default: T): T {
      match this
      case Some(v) => v
      case None => default
    }
  }

  function Min(a: real, b: real): (r: real)
    ensures r <= a && r <= b
    ensures r == a || r == b
  {
    if a <= b then a else b
  }

  function Max(a: real, b: real): (r: real)
    ensures r >= a && r >= b
    ensures r == a || r == b
  {
    if a >= b then a else b
  }

  // ---------------------------------------------------------------------------
  // Sequences
  // ---------------------------------------------------------------------------

  /** `Array.prototype.filter`: keeps, in order, the elements satisfying `p`. */
  function Filter<T>(s: seq<T>, p: T -> bool): (r: seq<T>)
    ensures |r| <= |s|
    ensures forall x :: x in r ==> x in s && p(x)
    ensures forall x :: x in s && p(x) ==> x in r
    ensures multiset(r) <= multiset(s)
  {
    if s == [] then []
    else
      assert s == [s[0]] + s[1..];
      if p(s[0]) then [s[0]] + Filter(s[1..], p) else Filter(s[1..], p)
  }

  /** `r` can be obtained from `s` by deleting elements, keeping the order. */
  ghost predicate IsSubsequence<T>(r: seq<T>, s: seq<T>)
    decreases |s|
  {
    r == [] || (s != [] && ((r[0] == s[0] && IsSubsequence(r[1..], s[1..])) || IsSubsequence(r, s[1..])))
  }

  lemma {:induction false} FilterIsSubsequence<T>(s: seq<T>, p: T -> bool)
    ensures IsSubsequence(Filter(s, p), s)
  {
    if s != [] {
      FilterIsSubsequence(s[1..], p);
      if p(s[0]) {
        assert Filter(s, p)[1..] == Filter(s[1..], p);
      }
    }
  }

  /** A test every element passes keeps the whole sequence. */
  lemma {:induction false} FilterAll<T>(s: seq<T>, p: T -> bool)
    requires forall i :: 0 <= i < |s| ==> p(s[i])
    ensures Filter(s, p) == s
  {
    if s != [] {
      FilterAll(s[1..], p);
      assert s == [s[0]] + s[1..];
    }
  }

  /** Filtering by `p` and by its negation splits `s` into two parts that
      together hold exactly the elements of `s`. */
  lemma {:induction false} FilterPartition<T>(s: seq<T>, p: T -> bool, q: T -> bool)
    requires forall x :: q(x) == !p(x)
    ensures |Filter(s, p)| + |Filter(s, q)| == |s|
    ensures multiset(Filter(s, p)) + multiset(Filter(s, q)) == multiset(s)
  {
    if s != [] {
      FilterPartition(s[1..], p, q);
      assert s == [s[0]] + s[1..];
    }
  }

  /** `s.reduce((acc, x) => acc + f(x), 0)`: a left fold, first element first. */
  function SumOf<T>(s: seq<T>, f: T -> real): real {
    if s == [] then 0.0 else SumOf(s[..|s| - 1], f) + f(s[|s| - 1])
  }

  /** The fold distributes over concatenation. */
  lemma {:induction false} SumOfAppend<T>(s: seq<T>, t: seq<T>, f: T -> real)
    ensures SumOf(s + t, f) == SumOf(s, f) + SumOf(t, f)
    decreases |t|
  {
    if t != [] {
      assert (s + t)[..|s + t| - 1] == s + t[..|t| - 1];
      assert (s + t)[|s + t| - 1] == t[|t| - 1];
      SumOfAppend(s, t[..|t| - 1], f);
    } else {
      assert s + t == s;
    }
  }

  /** The same total is reached summing from the front. */
  lemma {:induction false} SumOfCons<T>(x: T, s: seq<T>, f: T -> real)
    ensures SumOf([x] + s, f) == f(x) + SumOf(s, f)
  {
    SumOfAppend([x], s, f);
    assert [x][..0] == [];
  }

  lemma {:induction false} SumOfNonNegative<T>(s: seq<T>, f: T -> real)
    requires forall i :: 0 <= i < |s| ==> f(s[i]) >= 0.0
    ensures SumOf(s, f) >= 0.0
  {
    if s != [] {
      SumOfNonNegative(s[..|s| - 1], f);
    }
  }

  /** A fold of pointwise smaller terms is smaller. */
  lemma {:induction false} SumOfMonotone<T>(s: seq<T>, f: T -> real, g: T -> real)
    requires forall i :: 0 <= i < |s| ==> f(s[i]) <= g(s[i])
    ensures SumOf(s, f) <= SumOf(s, g)
  {
    if s != [] {
      SumOfMonotone(s[..|s| - 1], f, g);
    }
  }

  /** A constant factor in every term comes out of the fold. */
  lemma {:induction false} SumOfScale<T>(s: seq<T>, f: T -> real, g: T -> real, c: real)
    requires forall i :: 0 <= i < |s| ==> g(s[i]) == c * f(s[i])
    ensures SumOf(s, g) == c * SumOf(s, f)
  {
    if s != [] {
      SumOfScale(s[..|s| - 1], f, g, c);
      assert SumOf(s, g) == c * SumOf(s[..|s| - 1], f) + c * f(s[|s| - 1]);
    }
  }

  /** Two folds over the same elements whose terms agree pointwise agree. */
  lemma {:induction false} SumOfPointwise<T>(s: seq<T>, f: T -> real, g: T -> real)
    requires forall i :: 0 <= i < |s| ==> f(s[i]) == g(s[i])
    ensures SumOf(s, f) == SumOf(s, g)
  {
    if s != [] {
      SumOfPointwise(s[..|s| - 1], f, g);
    }
  }

  ghost predicate NoDuplicates<T>(s: seq<T>) {
    forall i, j :: 0 <= i < j < |s| ==> s[i] != s[j]
  }

  /** The distinct elements of `ks` in order of first occurrence: the key
      order of a JavaScript object built by assigning `acc[k]` for each `k`. */
  function Distinct<K(==,!new)>(ks: seq<K>): (r: seq<K>)
    ensures forall k :: k in r <==> k in ks
    ensures NoDuplicates(r)
    ensures |r| <= |ks|
  {
    if ks == [] then []
    else
      var r := Distinct(ks[..|ks| - 1]);
      var k := ks[|ks| - 1];
      assert ks == ks[..|ks| - 1] + [k];
      if k in r then r else r + [k]
  }

  // ---------------------------------------------------------------------------
  // Text (ASCII: `trim`, `toUpperCase`, `toLowerCase`, `includes`)
  // ---------------------------------------------------------------------------

  predicate IsSpace(c: char) {
    c == ' ' || 9 <= c as int <= 13
  }

  /** A string that `trim()` turns into the empty, falsy string. */
  predicate IsBlank(s: string) {
    forall i :: 0 <= i < |s| ==> IsSpace(s[i])
  }

  function TrimStart(s: string): (r: string)
    ensures |r| <= |s| && r == s[|s| - |r|..]
    ensures r == [] || !IsSpace(r[0])
    ensures r == [] <==> IsBlank(s)
  {
    if s != [] && IsSpace(s[0]) then
      var r := TrimStart(s[1..]);
      assert IsBlank(s[1..]) ==> IsBlank(s) by {
        if IsBlank(s[1..]) {
          forall i | 0 <= i < |s| ensures IsSpace(s[i]) {
            if i > 0 { assert s[i] == s[1..][i - 1]; }
          }
        }
      }
      r
    else s
  }

  function TrimEnd(s: string): (r: string)
    ensures |r| <= |s| && r == s[..|r|]
    ensures r == [] || !IsSpace(r[|r| - 1])
    ensures r == [] <==> IsBlank(s)
  {
    if s != [] && IsSpace(s[|s| - 1]) then
      var r := TrimEnd(s[..|s| - 1]);
      assert IsBlank(s[..|s| - 1]) ==> IsBlank(s) by {
        if IsBlank(s[..|s| - 1]) {
          forall i | 0 <= i < |s| ensures IsSpace(s[i]) {
            if i < |s| - 1 { assert s[i] == s[..|s| - 1][i]; }
          }
        }
      }
      r
    else s
  }

  /** `String.prototype.trim` over ASCII white space. */
  function Trim(s: string): (r: string)
    ensures r == [] <==> IsBlank(s)
    ensures r == [] || (!IsSpace(r[0]) && !IsSpace(r[|r| - 1]))
    ensures |r| <= |s|
  {
    TrimEnd(TrimStart(s))
  }

  function UpperChar(c: char): char {
    if 'a' <= c <= 'z' then (c as int - 32) as char else c
  }

  function LowerChar(c: char): char {
    if 'A' <= c <= 'Z' then (c as int + 32) as char else c
  }

  /** `toUpperCase` on ASCII letters. */
  function Upper(s: string): (r: string)
    ensures |r| == |s|
    ensures forall i :: 0 <= i < |s| ==> r[i] == UpperChar(s[i])
  {
    seq(|s|, i requires 0 <= i < |s| => UpperChar(s[i]))
  }

  /** `toLowerCase` on ASCII letters. */
  function Lower(s: string): (r: string)
    ensures |r| == |s|
    ensures forall i :: 0 <= i < |s| ==> r[i] == LowerChar(s[i])
  {
    seq(|s|, i requires 0 <= i < |s| => LowerChar(s[i]))
  }

  predicate HasNoLowerCase(s: string) {
    forall i :: 0 <= i < |s| ==> !('a' <= s[i] <= 'z')
  }

  predicate HasNoUpperCase(s: string) {
    forall i :: 0 <= i < |s| ==> !('A' <= s[i] <= 'Z')
  }

  lemma UpperIsUpper(s: string)
    ensures HasNoLowerCase(Upper(s))
    ensures Upper(Upper(s)) == Upper(s)
  {
  }

  lemma LowerIsLower(s: string)
    ensures HasNoUpperCase(Lower(s))
    ensures Lower(Lower(s)) == Lower(s)
  {
  }

  /** Upper-casing does not change whether a string is blank. */
  lemma UpperKeepsBlank(s: string)
    ensures IsBlank(Upper(s)) <==> IsBlank(s)
  {
    assert forall i :: 0 <= i < |s| ==> (IsSpace(Upper(s)[i]) <==> IsSpace(s[i]));
  }

  /** `q` occurs in `s` starting at index `i`. */
  predicate OccursAt(s: string, q: string, i: int) {
    0 <= i <= |s| - |q| && s[i..i + |q|] == q
  }

  /** `s.includes(q)`. */
  predicate Contains(s: string, q: string) {
    exists i :: 0 <= i <= |s| - |q| && OccursAt(s, q, i)
  }

  lemma ContainsEmpty(s: string)
    ensures Contains(s, "")
  {
    assert OccursAt(s, "", 0);
  }

  // ---------------------------------------------------------------------------
  // Decimal rendering (`String(n)` on integers)
  // ---------------------------------------------------------------------------

  predicate IsDigit(c: char) {
    '0' <= c <= '9'
  }

  function DigitChar(d: nat): (c: char)
    requires d < 10
    ensures IsDigit(c) && c as int - '0' as int == d
  {
    (d + '0' as int) as char
  }

  function DigitValue(c: char): nat
    requires IsDigit(c)
  {
    c as int - '0' as int
  }

  /** Decimal digits of `n`, most significant first, without leading zeros. */
  function NatToString(n: nat): (r: string)
    ensures |r| >= 1
    ensures forall i :: 0 <= i < |r| ==> IsDigit(r[i])
    ensures |r| > 1 ==> r[0] != '0'
    decreases n
  {
    if n < 10 then [DigitChar(n)] else NatToString(n / 10) + [DigitChar(n % 10)]
  }

  /** `String(i)` for an integer. */
  function IntToString(i: int): (r: string)
    ensures |r| >= 1
  {
    if i < 0 then "-" + NatToString(-i) else NatToString(i)
  }

  /** Reads decimal digits back; the inverse of `NatToString`. */
  function ParseNat(s: string): nat
    requires forall i :: 0 <= i < |s| ==> IsDigit(s[i])
  {
    if s == [] then 0 else ParseNat(s[..|s| - 1]) * 10 + DigitValue(s[|s| - 1])
  }

  lemma {:induction false} ParseNatToString(n: nat)
    ensures ParseNat(NatToString(n)) == n
    decreases n
  {
    if n >= 10 {
      var r := NatToString(n);
      ParseNatToString(n / 10);
      assert r[..|r| - 1] == NatToString(n / 10);
    }
  }

  /** Distinct numbers are rendered as distinct strings. */
  lemma {:induction false} NatToStringInjective(m: nat, n: nat)
    requires NatToString(m) == NatToString(n)
    ensures m == n
  {
    ParseNatToString(m);
    ParseNatToString(n);
  }

  // ---------------------------------------------------------------------------
  // Grouping: `s.reduce((acc, x) => { acc[key(x)] = (acc[key(x)] || 0) + val(x); return acc; }, {})`
  // ---------------------------------------------------------------------------

  /** The key of each element, in order. */
  function KeysOf<T>(s: seq<T>, key: T -> string): (ks: seq<string>)
    ensures |ks| == |s|
    ensures forall i :: 0 <= i < |ks| ==> ks[i] == key(s[i])
  {
    if s == [] then [] else KeysOf(s[..|s| - 1], key) + [key(s[|s| - 1])]
  }

  /** The values of the elements with key `k`, summed in order. */
  function GroupSum<T>(s: seq<T>, key: T -> string, val: T -> real, k: string): real {
    if s == [] then 0.0
    else GroupSum(s[..|s| - 1], key, val, k) + (if key(s[|s| - 1]) == k then val(s[|s| - 1]) else 0.0)
  }

  /** A key no element has sums to 0. */
  lemma {:induction false} GroupSumAbsent<T>(s: seq<T>, key: T -> string, val: T -> real, k: string)
    requires k !in KeysOf(s, key)
    ensures GroupSum(s, key, val, k) == 0.0
  {
    if s != [] {
      assert KeysOf(s[..|s| - 1], key) == KeysOf(s, key)[..|s| - 1];
      GroupSumAbsent(s[..|s| - 1], key, val, k);
    }
  }

  /** Appending an element appends its key. */
  lemma AppendKey<T>(s: seq<T>, x: T, key: T -> string)
    ensures KeysOf(s + [x], key) == KeysOf(s, key) + [key(x)]
  {
    assert (s + [x])[..|s|] == s;
  }

  /** The key of an appended element joins the distinct keys at the end
      unless it is already among them. */
  lemma AppendDistinctKey<T>(s: seq<T>, x: T, key: T -> string)
    ensures Distinct(KeysOf(s + [x], key)) ==
              var d := Distinct(KeysOf(s, key)); if key(x) in d then d else d + [key(x)]
  {
    AppendKey(s, x, key);
    var ks := KeysOf(s + [x], key);
    assert ks[..|ks| - 1] == KeysOf(s, key);
  }

  /** Appending an element adds its value to its own key's sum only. */
  lemma AppendToGroupSum<T>(s: seq<T>, x: T, key: T -> string, val: T -> real, k: string)
    ensures GroupSum(s + [x], key, val, k) == GroupSum(s, key, val, k) + (if key(x) == k then val(x) else 0.0)
  {
    assert (s + [x])[..|s|] == s;
  }

  /** Appending an element adds its value to the fold. */
  lemma SumOfSnoc<T>(s: seq<T>, x: T, f: T -> real)
    ensures SumOf(s + [x], f) == SumOf(s, f) + f(x)
  {
    assert (s + [x])[..|s|] == s;
  }

  /** The group sums of the keys `ks`, added up in key order. */
  function SumOverGroups<T>(ks: seq<string>, s: seq<T>, key: T -> string, val: T -> real): real {
    if ks == [] then 0.0
    else SumOverGroups(ks[..|ks| - 1], s, key, val) + GroupSum(s, key, val, ks[|ks| - 1])
  }

  /** An element whose key is not among `ks` changes none of their sums. */
  lemma {:induction false} OtherKeyKeepsGroups<T>(ks: seq<string>, s: seq<T>, x: T, key: T -> string, val: T -> real)
    requires key(x) !in ks
    ensures SumOverGroups(ks, s + [x], key, val) == SumOverGroups(ks, s, key, val)
  {
    if ks != [] {
      OtherKeyKeepsGroups(ks[..|ks| - 1], s, x, key, val);
      AppendToGroupSum(s, x, key, val, ks[|ks| - 1]);
    }
  }

  /** An element whose key is listed once among `ks` raises their sums by its value. */
  lemma {:induction false} OwnKeyRaisesGroups<T>(ks: seq<string>, s: seq<T>, x: T, key: T -> string, val: T -> real)
    requires NoDuplicates(ks) && key(x) in ks
    ensures SumOverGroups(ks, s + [x], key, val) == SumOverGroups(ks, s, key, val) + val(x)
  {
    var init, last := ks[..|ks| - 1], ks[|ks| - 1];
    assert ks == init + [last];
    AppendToGroupSum(s, x, key, val, last);
    if last == key(x) {
      OtherKeyKeepsGroups(init, s, x, key, val);
    } else {
      OwnKeyRaisesGroups(init, s, x, key, val);
    }
  }

  /** Grouping loses nothing: the sums of the distinct keys, added up in
      order of first occurrence, are the sum of all values. */
  lemma {:induction false} GroupsMakeTotal<T>(s: seq<T>, key: T -> string, val: T -> real)
    ensures SumOverGroups(Distinct(KeysOf(s, key)), s, key, val) == SumOf(s, val)
  {
    if s != [] {
      var init, x := s[..|s| - 1], s[|s| - 1];
      assert s == init + [x];
      var d := Distinct(KeysOf(init, key));
      GroupsMakeTotal(init, key, val);
      AppendDistinctKey(init, x, key);
      SumOfSnoc(init, x, val);
      if key(x) in d {
        OwnKeyRaisesGroups(d, init, x, key, val);
      } else {
        OtherKeyKeepsGroups(d, init, x, key, val);
        var d' := d + [key(x)];
        assert d'[..|d'| - 1] == d;
        GroupSumAbsent(init, key, val, key(x));
        AppendToGroupSum(init, x, key, val, key(x));
      }
    }
  }

  /** The values of `m` at `keys`, added up in key order (0 for a missing key). */
  function MapSum(keys: seq<string>, m: map<string, real>): real {
    if keys == [] then 0.0
    else MapSum(keys[..|keys| - 1], m) + (if keys[|keys| - 1] in m then m[keys[|keys| - 1]] else 0.0)
  }

  /** A dictionary holding each key's group sum adds up like the sums themselves. */
  lemma {:induction false} MapSumOfGroups<T>(ks: seq<string>, m: map<string, real>, s: seq<T>,
                                             key: T -> string, val: T -> real)
    requires forall k :: k in ks ==> k in m && m[k] == GroupSum(s, key, val, k)
    ensures MapSum(ks, m) == SumOverGroups(ks, s, key, val)
  {
    if ks != [] {
      MapSumOfGroups(ks[..|ks| - 1], m, s, key, val);
    }
  }

  /** What the accumulator holds after the elements `s`: their keys as
      dictionary keys, each with its group sum. */
  ghost predicate HoldsGroups<T>(s: seq<T>, key: T -> string, val: T -> real, acc: map<string, real>) {
    && (forall k :: k in acc <==> k in KeysOf(s, key))
    && (forall k :: k in acc ==> acc[k] == GroupSum(s, key, val, k))
  }

  /** `acc[key(x)] = (acc[key(x)] || 0) + val(x)` keeps `HoldsGroups`. */
  lemma AddToGroup<T>(s: seq<T>, x: T, key: T -> string, val: T -> real, acc: map<string, real>)
    requires HoldsGroups(s, key, val, acc)
    ensures HoldsGroups(s + [x], key, val,
                        acc[key(x) := (if key(x) in acc then acc[key(x)] else 0.0) + val(x)])
  {
    var acc' := acc[key(x) := (if key(x) in acc then acc[key(x)] else 0.0) + val(x)];
    assert forall k :: k in acc' <==> k in KeysOf(s + [x], key) by {
      AppendKey(s, x, key);
    }
    if key(x) !in acc {
      GroupSumAbsent(s, key, val, key(x));
    }
    forall k | k in acc' ensures acc'[k] == GroupSum(s + [x], key, val, k) {
      AppendToGroupSum(s, x, key, val, k);
    }
  }

  /** The reduce itself, updating one dictionary entry per element: the keys
      are exactly the keys occurring in `s`, each holding its group sum, and
      the entries, listed in order of first occurrence, add up to the sum of
      all values. */
  method GroupTotals<T>(s: seq<T>, key: T -> string, val: T -> real) returns (acc: map<string, real>)
    ensures forall k :: k in acc <==> k in KeysOf(s, key)
    ensures forall k :: k in acc ==> acc[k] == GroupSum(s, key, val, k)
    ensures MapSum(Distinct(KeysOf(s, key)), acc) == SumOf(s, val)
  {
    acc := map[];
    var i := 0;
    while i < |s|
      invariant 0 <= i <= |s|
      invariant HoldsGroups(s[..i], key, val, acc)
    {
      AddToGroup(s[..i], s[i], key, val, acc);
      assert s[..i + 1] == s[..i] + [s[i]];
      acc := acc[key(s[i]) := (if key(s[i]) in acc then acc[key(s[i])] else 0.0) + val(s[i])];
      i := i + 1;
    }
    assert s[..i] == s;
    MapSumOfGroups(Distinct(KeysOf(s, key)), acc, s, key, val);
    GroupsMakeTotal(s, key, val);
  }

  // ---------------------------------------------------------------------------
  // Dictionary entries
  // ---------------------------------------------------------------------------

  /** One key of a dictionary with its value. */
  datatype Entry = Entry(name: string, value: real)

  function EntryValue(e: Entry): real { e.value }

  /** `Object.entries(m)`: one entry per key of `m`, with that key's value,
      each key once. */
  method Entries(m: map<string, real>) returns (r: seq<Entry>)
    ensures |r| == |m|
    ensures forall i :: 0 <= i < |r| ==> r[i].name in m && r[i].value == m[r[i].name]
    ensures forall k :: k in m ==> exists i :: 0 <= i < |r| && r[i].name == k
    ensures forall i, j :: 0 <= i < j < |r| ==> r[i].name != r[j].name
  {
    r := [];
    var rest := m.Keys;
    while rest != {}
      invariant Listed(m, r, rest)
      decreases |rest|
    {
      var k :| k in rest;
      ListOneMore(m, r, rest, k);
      r := r + [Entry(k, m[k])];
      rest := rest - {k};
    }
  }

  /** `r` lists, each once and with its value, every key of `m` that is not
      in `rest`. */
  ghost predicate Listed(m: map<string, real>, r: seq<Entry>, rest: set<string>) {
    && rest <= m.Keys
    && |r| + |rest| == |m|
    && (forall i :: 0 <= i < |r| ==> r[i].name in m && r[i].name !in rest && r[i].value == m[r[i].name])
    && (forall k :: k in m ==> k in rest || exists i :: 0 <= i < |r| && r[i].name == k)
    && (forall i, j :: 0 <= i < j < |r| ==> r[i].name != r[j].name)
  }

  /** Listing one more of the remaining keys keeps the listing complete. */
  lemma ListOneMore(m: map<string, real>, r: seq<Entry>, rest: set<string>, k: string)
    requires Listed(m, r, rest) && k in rest
    ensures Listed(m, r + [Entry(k, m[k])], rest - {k})
  {
    var r' := r + [Entry(k, m[k])];
    forall k' | k' in m && k' !in rest - {k} ensures exists i :: 0 <= i < |r'| && r'[i].name == k' {
      if k' == k {
        assert r'[|r|].name == k';
      } else {
        var i :| 0 <= i < |r| && r[i].name == k';
        assert r'[i].name == k';
      }
    }
  }

  // ---------------------------------------------------------------------------
  // Sorting by a numeric key, largest first (`arr.sort((a, b) => key(b) - key(a))`)
  // ---------------------------------------------------------------------------

  /** Two sequences with the same multiset have the same members. */
  lemma SameMembers<T>(a: seq<T>, b: seq<T>)
    requires multiset(a) == multiset(b)
    ensures forall x :: x in a <==> x in b
  {
    forall x ensures x in a <==> x in b {
      assert x in a <==> x in multiset(a);
      assert x in b <==> x in multiset(b);
    }
  }

  ghost predicate DescendingBy<T>(s: seq<T>, key: T -> real) {
    forall i, j :: 0 <= i < j < |s| ==> key(s[i]) >= key(s[j])
  }

  /** `s[..i + 1]` is in descending order except that `s[j]` may be out of
      place, and it is no smaller than anything after it. */
  ghost predicate DescendingBut<T>(s: seq<T>, key: T -> real, j: nat, i: nat)
    requires j <= i < |s|
  {
    (forall p, q :: 0 <= p < q <= i && p != j && q != j ==> key(s[p]) >= key(s[q]))
    && (forall q :: j < q <= i ==> key(s[j]) >= key(s[q]))
  }

  /** Before the insertion starts, only the new element is out of place. */
  lemma StartInsert<T>(s: seq<T>, key: T -> real, i: nat)
    requires i < |s| && DescendingBy(s[..i], key)
    ensures DescendingBut(s, key, i, i)
  {
    forall p, q | 0 <= p < q <= i && p != i && q != i ensures key(s[p]) >= key(s[q]) {
      assert s[p] == s[..i][p] && s[q] == s[..i][q];
    }
  }

  /** Swapping the misplaced element with a smaller left neighbour moves the
      gap one step left. */
  lemma SwapLeft<T>(s: seq<T>, key: T -> real, j: nat, i: nat)
    requires 0 < j <= i < |s| && DescendingBut(s, key, j, i) && key(s[j - 1]) < key(s[j])
    ensures DescendingBut(s[j - 1 := s[j]][j := s[j - 1]], key, j - 1, i)
  {
  }

  /** A swap inside `s[..i + 1]` keeps the elements and the part after `i`. */
  lemma SwapKeeps<T>(s: seq<T>, j: nat, i: nat)
    requires 0 < j <= i < |s|
    ensures multiset(s[j - 1 := s[j]][j := s[j - 1]]) == multiset(s)
    ensures s[j - 1 := s[j]][j := s[j - 1]][i + 1..] == s[i + 1..]
  {
  }

  /** Once the left neighbour is no smaller, the prefix is in order. */
  lemma FinishInsert<T>(s: seq<T>, key: T -> real, j: nat, i: nat)
    requires j <= i < |s| && DescendingBut(s, key, j, i)
    requires j == 0 || key(s[j - 1]) >= key(s[j])
    ensures DescendingBy(s[..i + 1], key)
  {
    var t := s[..i + 1];
    forall p, q | 0 <= p < q < |t| ensures key(t[p]) >= key(t[q]) {
      if q == j && p < j - 1 {
        assert key(s[p]) >= key(s[j - 1]);
      }
    }
  }

  /** Moves `a[i]` left past every smaller key, so that the sorted prefix
      `a[..i]` grows to the sorted prefix `a[..i + 1]`. */
  method InsertDescendingBy<T>(a: array<T>, i: nat, key: T -> real)
    requires i < a.Length
    requires DescendingBy(a[..i], key)
    modifies a
    ensures DescendingBy(a[..i + 1], key)
    ensures a[i + 1..] == old(a[i + 1..])
    ensures multiset(a[..]) == multiset(old(a[..]))
  {
    StartInsert(a[..], key, i);
    assert a[i + 1..] == a[..][i + 1..];
    var j := i;
    while j > 0 && key(a[j - 1]) < key(a[j])
      invariant 0 <= j <= i
      invariant DescendingBut(a[..], key, j, i)
      invariant a[i + 1..] == old(a[i + 1..])
      invariant multiset(a[..]) == multiset(old(a[..]))
    {
      ghost var s := a[..];
      SwapLeft(s, key, j, i);
      SwapKeeps(s, j, i);
      a[j - 1], a[j] := a[j], a[j - 1];
      assert a[..] == s[j - 1 := s[j]][j := s[j - 1]];
      assert a[i + 1..] == a[..][i + 1..];
      j := j - 1;
    }
    FinishInsert(a[..], key, j, i);
  }

  /** Sorts `a` in place, largest key first (insertion sort). */
  method SortDescendingBy<T>(a: array<T>, key: T -> real)
    modifies a
    ensures DescendingBy(a[..], key)
    ensures multiset(a[..]) == multiset(old(a[..]))
  {
    var i := 0;
    while i < a.Length
      invariant 0 <= i <= a.Length
      invariant DescendingBy(a[..i], key)
      invariant multiset(a[..]) == multiset(old(a[..]))
    {
      InsertDescendingBy(a, i, key);
      i := i + 1;
    }
    assert a[..] == a[..a.Length];
  }

  /** Copies `s` into a fresh array and sorts the copy, largest key first;
      `s` itself is a value and stays as it was. */
  method SortedDescendingBy<T>(s: seq<T>, key: T -> real) returns (r: seq<T>)
    ensures DescendingBy(r, key)
    ensures multiset(r) == multiset(s)
    ensures |r| == |s|
  {
    var a := new T[|s|](i requires 0 <= i < |s| => s[i]);
    assert a[..] == s;
    SortDescendingBy(a, key);
    r := a[..];
    assert |r| == |multiset(r)| == |multiset(s)| == |s|;
  }
}

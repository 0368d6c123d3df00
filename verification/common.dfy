/**
 * Shared vocabulary for the whole model: optional values and error results,
 * the JSON values the repository reads, the few Python string operations the
 * code relies on (ASCII case mapping, substring test, split, strip), Python
 * list operations (count, remove-first, slicing) and the stable descending sort
 * that every `sort(key=..., reverse=True)` call in the repository performs.
 */
module Common {

  datatype Option<T> = None | Some(value: T)

  /** A Python call that either returns a value or raises. */
  datatype Result<T> = Ok(value: T) | Err(error: string)

  /** A parsed JSON document, as `json.load` returns it. */
  datatype Json =
    | JNull
    | JBool(b: bool)
    | JInt(i: int)
    | JNum(n: real)
    | JStr(s: string)
    | JList(items: seq<Json>)
    | JObj(fields: map<string, Json>)

  function GetOr<K, V>(m: map<K, V>, k: K, default: V): V
  {
    if k in m then m[k] else default
  }

  /** Python truthiness of a JSON value (`if v`). */
  predicate Truthy(v: Json)
  {
    match v
    case JNull => false
    case JBool(b) => b
    case JInt(i) => i != 0
    case JNum(x) => x != 0.0
    case JStr(t) => t != []
    case JList(xs) => xs != []
    case JObj(m) => m != map[]
  }

  /**
   * `needle in container` for a JSON value: a key of a dictionary, an item of
   * a list, a substring of a string; on null, a number or a bool Python raises
   * `TypeError`.
   */
  function PyIn(container: Json, needle: string): Result<bool>
  {
    match container
    case JObj(m) => Ok(needle in m)
    case JList(xs) => Ok(JStr(needle) in xs)
    case JStr(t) => Ok(Contains(t, needle))
    case _ => Err("TypeError: argument is not iterable")
  }

  // ---------------------------------------------------------------- strings

  function LowerChar(c: char): char
  {
    if 'A' <= c <= 'Z' then (c as int + 32) as char else c
  }

  function UpperChar(c: char): char
  {
    if 'a' <= c <= 'z' then (c as int - 32) as char else c
  }

  /** `str.lower()` restricted to ASCII letters. */
  function Lower(s: string): (r: string)
    ensures |r| == |s|
    ensures forall i :: 0 <= i < |s| ==> r[i] == LowerChar(s[i])
  {
    if s == [] then [] else [LowerChar(s[0])] + Lower(s[1..])
  }

  /** `str.upper()` restricted to ASCII letters. */
  function Upper(s: string): (r: string)
    ensures |r| == |s|
    ensures forall i :: 0 <= i < |s| ==> r[i] == UpperChar(s[i])
  {
    if s == [] then [] else [UpperChar(s[0])] + Upper(s[1..])
  }

  /** Lower-casing twice is lower-casing once. */
  lemma LowerIdempotent(s: string)
    ensures Lower(Lower(s)) == Lower(s)
  {
    var l := Lower(s);
    assert forall i :: 0 <= i < |s| ==> Lower(l)[i] == LowerChar(LowerChar(s[i])) == l[i];
  }

  /** `str.capitalize()` restricted to ASCII letters. */
  function Capitalize(s: string): string
  {
    if s == [] then [] else [UpperChar(s[0])] + Lower(s[1..])
  }

  predicate IsPrefix(p: string, s: string)
  {
    |p| <= |s| && s[..|p|] == p
  }

  /** Python's `needle in hay` on strings. */
  predicate Contains(hay: string, needle: string)
  {
    IsPrefix(needle, hay) || (|hay| > 0 && Contains(hay[1..], needle))
  }

  lemma {:induction false} ContainsAt(hay: string, needle: string, i: nat)
    requires i + |needle| <= |hay| && hay[i..i + |needle|] == needle
    ensures Contains(hay, needle)
  {
    if i > 0 {
      assert hay[1..][i - 1..i - 1 + |needle|] == needle;
      ContainsAt(hay[1..], needle, i - 1);
    }
  }

  lemma {:induction false} ContainsItself(s: string)
    ensures Contains(s, s) && Contains(s, "")
  {
    assert IsPrefix(s, s);
    assert IsPrefix("", s);
  }

  predicate IsDigit(c: char)
  {
    '0' <= c <= '9'
  }

  predicate AllDigits(s: string)
  {
    forall i :: 0 <= i < |s| ==> IsDigit(s[i])
  }

  function DigitChar(d: nat): (c: char)
    requires d < 10
    ensures IsDigit(c)
  {
    ('0' as int + d) as char
  }

  /** `str(n)` for a natural number. */
  function NatToString(n: nat): (r: string)
    ensures |r| >= 1 && AllDigits(r)
    decreases n
  {
    if n < 10 then [DigitChar(n)] else NatToString(n / 10) + [DigitChar(n % 10)]
  }

  lemma {:induction false} NatToStringInjective(a: nat, b: nat)
    requires NatToString(a) == NatToString(b)
    ensures a == b
    decreases a
  {
    var sa, sb := NatToString(a), NatToString(b);
    if a >= 10 && b >= 10 {
      assert DigitChar(a % 10) == sa[|sa| - 1] == sb[|sb| - 1] == DigitChar(b % 10);
      assert NatToString(a / 10) == sa[..|sa| - 1] == sb[..|sb| - 1] == NatToString(b / 10);
      NatToStringInjective(a / 10, b / 10);
    }
  }

  /** How many digits the string ends with. */
  function TrailingDigits(t: string): nat
  {
    if t == [] || !IsDigit(t[|t| - 1]) then 0 else 1 + TrailingDigits(t[..|t| - 1])
  }

  lemma {:induction false} TrailingDigitsOf(p: string, d: string)
    requires |p| > 0 && !IsDigit(p[|p| - 1])
    requires AllDigits(d)
    ensures TrailingDigits(p + d) == |d|
    decreases |d|
  {
    if d == [] {
      assert p + d == p;
    } else {
      assert (p + d)[..|p + d| - 1] == p + d[..|d| - 1];
      TrailingDigitsOf(p, d[..|d| - 1]);
    }
  }

  /**
   * A label ending in a character that is not a digit, followed by a decimal
   * number: two such strings are equal only if the numbers are equal.
   */
  lemma {:induction false} NumberedLabelInjective(p: string, q: string, a: nat, b: nat)
    requires |p| > 0 && !IsDigit(p[|p| - 1])
    requires |q| > 0 && !IsDigit(q[|q| - 1])
    requires p + NatToString(a) == q + NatToString(b)
    ensures a == b
  {
    var da, db := NatToString(a), NatToString(b);
    var s := p + da;
    TrailingDigitsOf(p, da);
    TrailingDigitsOf(q, db);
    assert da == s[|p|..] == db;
    NatToStringInjective(a, b);
  }

  /**
   * Python's `str.isspace()`, which is what `str.strip()` removes and what
   * `\s` matches in a `str` pattern: tab through carriage return, the
   * separators U+001C to U+001F, space, and the spaces beyond ASCII.
   */
  predicate IsSpace(c: char)
  {
    '\t' <= c <= '\r' || '\U{001C}' <= c <= ' ' || ('\U{0085}' <= c && WideSpace(c))
  }

  /** The characters beyond ASCII that `str.isspace()` accepts. */
  predicate WideSpace(c: char)
  {
    c == '\U{0085}' || c == '\U{00A0}' || c == '\U{1680}' || '\U{2000}' <= c <= '\U{200A}' ||
    c == '\U{2028}' || c == '\U{2029}' || c == '\U{202F}' || c == '\U{205F}' || c == '\U{3000}'
  }

  function TrimLeft(s: string): (r: string)
    ensures |r| <= |s|
  {
    if s != [] && IsSpace(s[0]) then TrimLeft(s[1..]) else s
  }

  function TrimRight(s: string): (r: string)
    ensures |r| <= |s|
  {
    if s != [] && IsSpace(s[|s| - 1]) then TrimRight(s[..|s| - 1]) else s
  }

  /** `str.strip()`: leading and trailing whitespace removed. */
  function Strip(s: string): string
  {
    TrimRight(TrimLeft(s))
  }

  /** The text before the first `sep`, or all of `s`: `s.split(sep)[0]`. */
  function BeforeFirst(s: string, sep: char): (r: string)
    ensures IsPrefix(r, s)
    ensures forall i :: 0 <= i < |r| ==> r[i] != sep
    ensures |r| < |s| ==> s[|r|] == sep
  {
    if s == [] then [] else if s[0] == sep then [] else [s[0]] + BeforeFirst(s[1..], sep)
  }

  /** `s.split(sep)` for a one-character separator. */
  function Split(s: string, sep: char): (r: seq<string>)
    ensures |r| >= 1
    ensures forall i :: 0 <= i < |r| ==> sep !in r[i]
    decreases |s|
  {
    var head := BeforeFirst(s, sep);
    if |head| == |s| then [s] else [head] + Split(s[|head| + 1..], sep)
  }

  // ---------------------------------------------------------------- lists

  /** `list.count(x)`. */
  function Count<T(==)>(s: seq<T>, x: T): (n: nat)
    ensures n <= |s|
    ensures n > 0 <==> x in s
  {
    if s == [] then 0 else (if s[0] == x then 1 else 0) + Count(s[1..], x)
  }

  /** `list.append(x)` raises the count of `x` by one and changes no other count. */
  lemma {:induction false} CountAppend<T>(s: seq<T>, x: T, y: T)
    ensures Count(s + [x], y) == Count(s, y) + (if x == y then 1 else 0)
  {
    if s != [] {
      assert (s + [x])[1..] == s[1..] + [x];
      CountAppend(s[1..], x, y);
    }
  }

  /**
   * `list.remove(x)`: drops the first occurrence of `x`. Python raises when
   * there is none; every caller in the model proves that `x` occurs.
   */
  function RemoveFirst<T(==)>(s: seq<T>, x: T): seq<T>
  {
    if s == [] then [] else if s[0] == x then s[1..] else [s[0]] + RemoveFirst(s[1..], x)
  }

  /** Removing `x` lowers its count by one when it occurs and changes no other count. */
  lemma {:induction false} RemoveFirstCount<T>(s: seq<T>, x: T, y: T)
    ensures Count(RemoveFirst(s, x), y) == Count(s, y) - (if y == x && x in s then 1 else 0)
  {
    if s != [] && s[0] != x {
      RemoveFirstCount(s[1..], x, y);
      assert x in s <==> x in s[1..];
    }
  }

  /** Deletes every occurrence of `x`, keeping the order of the rest. */
  function RemoveAll<T(==)>(s: seq<T>, x: T): (r: seq<T>)
    ensures x !in r
    ensures forall i :: 0 <= i < |r| ==> r[i] in s
    ensures forall i :: 0 <= i < |s| && s[i] != x ==> s[i] in r
    ensures |r| <= |s|
  {
    if s == [] then [] else if s[0] == x then RemoveAll(s[1..], x) else [s[0]] + RemoveAll(s[1..], x)
  }

  predicate NoDuplicates<T(==)>(s: seq<T>)
  {
    forall i, j :: 0 <= i < j < |s| ==> s[i] != s[j]
  }

  /** Python's `s[:n]` for any integer `n`, negative values counting from the end. */
  function SliceTo<T(==)>(s: seq<T>, n: int): (r: seq<T>)
    ensures IsSeqPrefix(r, s)
    ensures n >= 0 ==> |r| == (if n < |s| then n else |s|)
    ensures n < 0 ==> |r| == (if |s| + n > 0 then |s| + n else 0)
  {
    if n >= 0 then (if n < |s| then s[..n] else s)
    else if |s| + n > 0 then s[..|s| + n] else []
  }

  predicate IsSeqPrefix<T(==)>(p: seq<T>, s: seq<T>)
  {
    |p| <= |s| && s[..|p|] == p
  }

  /** Python's `s[-n:]` for `n >= 0` (with `s[-0:]` being all of `s`). */
  function LastN<T>(s: seq<T>, n: nat): (r: seq<T>)
    ensures |r| == (if n == 0 || n >= |s| then |s| else n)
  {
    if n == 0 || n >= |s| then s else s[|s| - n..]
  }

  // ---------------------------------------------------------------- reals

  function MinReal(a: real, b: real): (r: real)
    ensures r <= a && r <= b && (r == a || r == b)
  {
    if a <= b then a else b
  }

  function MaxReal(a: real, b: real): (r: real)
    ensures r >= a && r >= b && (r == a || r == b)
  {
    if a >= b then a else b
  }

  /** `max(lo, min(hi, x))`. */
  function Clamp(x: real, lo: real, hi: real): (r: real)
    requires lo <= hi
    ensures lo <= r <= hi
    ensures lo <= x <= hi ==> r == x
  {
    MaxReal(lo, MinReal(hi, x))
  }

  function SumReals(s: seq<real>): real
  {
    if s == [] then 0.0 else s[0] + SumReals(s[1..])
  }

  lemma {:induction false} SumRealsAppend(s: seq<real>, x: real)
    ensures SumReals(s + [x]) == SumReals(s) + x
  {
    if s != [] {
      assert (s + [x])[1..] == s[1..] + [x];
      SumRealsAppend(s[1..], x);
    }
  }

  lemma {:induction false} SumRealsBounds(s: seq<real>, lo: real, hi: real)
    requires forall i :: 0 <= i < |s| ==> lo <= s[i] <= hi
    ensures lo * (|s| as real) <= SumReals(s) <= hi * (|s| as real)
  {
    if s != [] {
      SumRealsBounds(s[1..], lo, hi);
    }
  }

  // ---------------------------------------------------------------- sorting

  /** An item paired with the score it is ranked by. */
  datatype Scored<T> = Scored(item: T, score: real)

  predicate SortedDesc<T>(s: seq<Scored<T>>)
  {
    forall i, j :: 0 <= i < j < |s| ==> s[i].score >= s[j].score
  }

  /** Places `x` after every element whose score is at least its own. */
  function InsertDesc<T>(sorted: seq<Scored<T>>, x: Scored<T>): (r: seq<Scored<T>>)
    ensures |r| == |sorted| + 1
  {
    if sorted == [] then [x]
    else if sorted[0].score >= x.score then [sorted[0]] + InsertDesc(sorted[1..], x)
    else [x] + sorted
  }

  /** `list.sort(key=score, reverse=True)`; Python's sort is stable. */
  function SortDesc<T>(s: seq<Scored<T>>): (r: seq<Scored<T>>)
    ensures |r| == |s|
  {
    if s == [] then [] else InsertDesc(SortDesc(s[..|s| - 1]), s[|s| - 1])
  }

  lemma {:induction false} InsertDescMultiset<T>(sorted: seq<Scored<T>>, x: Scored<T>)
    ensures multiset(InsertDesc(sorted, x)) == multiset(sorted) + multiset{x}
  {
    if sorted != [] && sorted[0].score >= x.score {
      InsertDescMultiset(sorted[1..], x);
      assert sorted == [sorted[0]] + sorted[1..];
    }
  }

  lemma {:induction false} InsertDescBounded<T>(sorted: seq<Scored<T>>, x: Scored<T>, b: real)
    requires forall i :: 0 <= i < |sorted| ==> sorted[i].score <= b
    requires x.score <= b
    ensures forall i :: 0 <= i < |InsertDesc(sorted, x)| ==> InsertDesc(sorted, x)[i].score <= b
  {
    if sorted != [] && sorted[0].score >= x.score {
      InsertDescBounded(sorted[1..], x, b);
    }
  }

  lemma {:induction false} InsertDescSorted<T>(sorted: seq<Scored<T>>, x: Scored<T>)
    requires SortedDesc(sorted)
    ensures SortedDesc(InsertDesc(sorted, x))
  {
    if sorted != [] && sorted[0].score >= x.score {
      InsertDescSorted(sorted[1..], x);
      InsertDescBounded(sorted[1..], x, sorted[0].score);
    }
  }

  lemma {:induction false} SortDescCorrect<T>(s: seq<Scored<T>>)
    ensures SortedDesc(SortDesc(s))
    ensures multiset(SortDesc(s)) == multiset(s)
  {
    if s != [] {
      var init := s[..|s| - 1];
      SortDescCorrect(init);
      InsertDescSorted(SortDesc(init), s[|s| - 1]);
      InsertDescMultiset(SortDesc(init), s[|s| - 1]);
      assert s == init + [s[|s| - 1]];
    }
  }

  /** The entries scoring exactly `v`, in their order in `s`. */
  function WithScore<T>(s: seq<Scored<T>>, v: real): (r: seq<Scored<T>>)
    ensures |r| <= |s|
    ensures forall i :: 0 <= i < |r| ==> r[i].score == v && r[i] in s
  {
    if s == [] then []
    else (if s[0].score == v then [s[0]] else []) + WithScore(s[1..], v)
  }

  lemma {:induction false} WithScoreAppend<T>(s: seq<Scored<T>>, y: Scored<T>, v: real)
    ensures WithScore(s + [y], v) == WithScore(s, v) + (if y.score == v then [y] else [])
  {
    if s != [] {
      assert (s + [y])[0] == s[0] && (s + [y])[1..] == s[1..] + [y];
      WithScoreAppend(s[1..], y, v);
      assert WithScore(s + [y], v) == (if s[0].score == v then [s[0]] else []) + WithScore(s[1..] + [y], v);
    }
  }

  lemma {:induction false} WithScoreAbsent<T>(s: seq<Scored<T>>, v: real)
    requires forall i :: 0 <= i < |s| ==> s[i].score != v
    ensures WithScore(s, v) == []
  {
    if s != [] {
      WithScoreAbsent(s[1..], v);
    }
  }

  /** Inserting `x` into a descending list puts it after every entry of its own score. */
  lemma {:induction false} InsertDescStable<T>(sorted: seq<Scored<T>>, x: Scored<T>, v: real)
    requires SortedDesc(sorted)
    ensures WithScore(InsertDesc(sorted, x), v) == WithScore(sorted, v) + (if x.score == v then [x] else [])
  {
    if sorted == [] {
      assert WithScore([x], v) == (if x.score == v then [x] else []) + WithScore([x][1..], v);
    } else if sorted[0].score >= x.score {
      var r := InsertDesc(sorted, x);
      SortedDescTail(sorted);
      InsertDescStable(sorted[1..], x, v);
      assert r[0] == sorted[0] && r[1..] == InsertDesc(sorted[1..], x);
      assert WithScore(r, v) == (if sorted[0].score == v then [sorted[0]] else []) + WithScore(r[1..], v);
    } else {
      var r := [x] + sorted;
      assert r[1..] == sorted;
      if x.score == v {
        assert forall i :: 0 <= i < |sorted| ==> sorted[i].score <= sorted[0].score;
        WithScoreAbsent(sorted, v);
      }
    }
  }

  lemma SortedDescTail<T>(s: seq<Scored<T>>)
    requires s != [] && SortedDesc(s)
    ensures SortedDesc(s[1..])
  {
    forall i, j | 0 <= i < j < |s| - 1
      ensures s[1..][i].score >= s[1..][j].score
    {
      assert s[1..][i] == s[i + 1] && s[1..][j] == s[j + 1];
    }
  }

  /**
   * The sort is stable, as Python's is: the entries of any one score come out
   * in the order they went in.
   */
  lemma {:induction false} SortDescStable<T>(s: seq<Scored<T>>, v: real)
    ensures WithScore(SortDesc(s), v) == WithScore(s, v)
  {
    if s != [] {
      var init := s[..|s| - 1];
      SortDescStable(init, v);
      SortDescCorrect(init);
      InsertDescStable(SortDesc(init), s[|s| - 1], v);
      WithScoreAppend(init, s[|s| - 1], v);
      assert s == init + [s[|s| - 1]];
    }
  }

  /**
   * Taking the first `k` entries of a descending sort keeps the best entries:
   * every input entry is either taken or scores no higher than every entry taken.
   */
  lemma TopKDominates<T>(s: seq<Scored<T>>, k: nat, x: Scored<T>)
    requires x in s
    ensures var r := SortDesc(s);
      x in r[..if k < |r| then k else |r|] ||
      forall i :: 0 <= i < k && i < |r| ==> r[i].score >= x.score
  {
    var r := SortDesc(s);
    SortDescCorrect(s);
    assert x in multiset(r);
    var j :| 0 <= j < |r| && r[j] == x;
    if j >= k {
      forall i | 0 <= i < k && i < |r| ensures r[i].score >= x.score {
        assert i < j;
      }
    } else {
      assert r[..if k < |r| then k else |r|][j] == x;
    }
  }

  // ------------------------------------------------------- string ordering

  /** Python's `a <= b` on strings: code point by code point, a prefix first. */
  predicate StrLe(a: string, b: string)
  {
    a == [] || (b != [] && (a[0] < b[0] || (a[0] == b[0] && StrLe(a[1..], b[1..]))))
  }

  lemma {:induction false} StrLeTotal(a: string, b: string)
    ensures StrLe(a, b) || StrLe(b, a)
  {
    if a != [] && b != [] && a[0] == b[0] {
      StrLeTotal(a[1..], b[1..]);
    }
  }

  lemma {:induction false} StrLeTransitive(a: string, b: string, c: string)
    requires StrLe(a, b) && StrLe(b, c)
    ensures StrLe(a, c)
  {
    if a != [] && a[0] == b[0] && b[0] == c[0] {
      StrLeTransitive(a[1..], b[1..], c[1..]);
    }
  }

  predicate SortedStrings(s: seq<string>)
  {
    forall i, j :: 0 <= i < j < |s| ==> StrLe(s[i], s[j])
  }

  /** Places `x` before the first element it does not exceed. */
  function InsertString(sorted: seq<string>, x: string): (r: seq<string>)
    ensures |r| == |sorted| + 1
  {
    if sorted == [] || StrLe(x, sorted[0]) then [x] + sorted
    else [sorted[0]] + InsertString(sorted[1..], x)
  }

  /** `sorted(xs)` for a list of strings. */
  function SortStrings(xs: seq<string>): (r: seq<string>)
    ensures |r| == |xs|
  {
    if xs == [] then [] else InsertString(SortStrings(xs[..|xs| - 1]), xs[|xs| - 1])
  }

  lemma {:induction false} InsertStringMultiset(sorted: seq<string>, x: string)
    ensures multiset(InsertString(sorted, x)) == multiset(sorted) + multiset{x}
  {
    if sorted != [] && !StrLe(x, sorted[0]) {
      InsertStringMultiset(sorted[1..], x);
      assert sorted == [sorted[0]] + sorted[1..];
    }
  }

  lemma {:induction false} InsertStringSorted(sorted: seq<string>, x: string)
    requires SortedStrings(sorted)
    ensures SortedStrings(InsertString(sorted, x))
  {
    var r := InsertString(sorted, x);
    if sorted == [] {
    } else if StrLe(x, sorted[0]) {
      forall i, j | 0 <= i < j < |r| ensures StrLe(r[i], r[j]) {
        if i == 0 && j > 1 {
          StrLeTransitive(x, sorted[0], sorted[j - 1]);
        }
      }
    } else {
      var rest := InsertString(sorted[1..], x);
      InsertStringSorted(sorted[1..], x);
      InsertStringMultiset(sorted[1..], x);
      StrLeTotal(x, sorted[0]);
      forall j | 0 < j < |r| ensures StrLe(r[0], r[j]) {
        assert r[j] == rest[j - 1];
        assert rest[j - 1] in multiset(sorted[1..]) + multiset{x};
      }
    }
  }

  /** The sort is ordered and a permutation of its input. */
  lemma {:induction false} SortStringsCorrect(xs: seq<string>)
    ensures SortedStrings(SortStrings(xs))
    ensures multiset(SortStrings(xs)) == multiset(xs)
  {
    if xs != [] {
      var init := xs[..|xs| - 1];
      SortStringsCorrect(init);
      InsertStringSorted(SortStrings(init), xs[|xs| - 1]);
      InsertStringMultiset(SortStrings(init), xs[|xs| - 1]);
      assert xs == init + [xs[|xs| - 1]];
    }
  }

  /** `sep.join(xs)`. */
  function Join(sep: string, xs: seq<string>): string
  {
    if xs == [] then "" else if |xs| == 1 then xs[0] else xs[0] + sep + Join(sep, xs[1..])
  }
}

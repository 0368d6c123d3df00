/**
 * The string and field extractors of the unit-data loader
 * (`utils/json_loader.py`, class `UnitJsonLoader`): the regular expressions it
 * applies to strings such as `"20 (+2)"`, `"9.7 / 11.2"` or
 * `"300/0/1"`, the list coercion, the numeric field lookup over alternative
 * key names, and the completeness check of a loaded unit file. Every operation
 * takes the loader's `dev_mode` flag; in development mode a value that cannot
 * be extracted raises (`Err`), otherwise a default is returned.
 *
 * Each regular expression is written out as a scanner over the string that
 * tries the pattern at every position from the left, which is how `re.search`
 * and `re.findall` find their leftmost matches; the patterns used here have no
 * backtracking choices beyond the ones spelt out.
 */
module JsonLoader {
  import opened Common

  // ================================================================ digit runs

  /** The length of the run of ASCII digits `s` starts with. */
  function DigitRunLength(s: string): (n: nat)
    ensures n <= |s|
    ensures forall i :: 0 <= i < n ==> IsDigit(s[i])
    ensures n < |s| ==> !IsDigit(s[n])
  {
    if s != [] && IsDigit(s[0]) then 1 + DigitRunLength(s[1..]) else 0
  }

  /** The length of the run of whitespace (`\s*`) `s` starts with. */
  function SpaceRunLength(s: string): (n: nat)
    ensures n <= |s|
    ensures forall i :: 0 <= i < n ==> IsSpace(s[i])
    ensures n < |s| ==> !IsSpace(s[n])
  {
    if s != [] && IsSpace(s[0]) then 1 + SpaceRunLength(s[1..]) else 0
  }

  /** `int(d)` for a string of ASCII digits (0 for the empty string). */
  function DigitsValue(d: string): nat
    requires AllDigits(d)
  {
    if d == [] then 0 else DigitsValue(d[..|d| - 1]) * 10 + (d[|d| - 1] as int - '0' as int)
  }

  /** `int(str(n)) == n`. */
  lemma {:induction false} DigitsValueOfString(n: nat)
    ensures DigitsValue(NatToString(n)) == n
    decreases n
  {
    var d := NatToString(n);
    if n >= 10 {
      DigitsValueOfString(n / 10);
      assert d[..|d| - 1] == NatToString(n / 10);
    }
  }

  /** A digit run of a string made of digits only is the whole string. */
  lemma {:induction false} DigitRunOfDigits(d: string, q: string)
    requires AllDigits(d)
    requires q == [] || !IsDigit(q[0])
    ensures DigitRunLength(d + q) == |d|
    decreases |d|
  {
    if d == [] {
      assert d + q == q;
    } else {
      assert (d + q)[1..] == d[1..] + q;
      DigitRunOfDigits(d[1..], q);
    }
  }

  /** A digit run that stops inside `p` stops at the same place in `p + q`. */
  lemma {:induction false} DigitRunAppend(p: string, q: string)
    requires q == [] || !IsDigit(q[0])
    ensures DigitRunLength(p + q) == DigitRunLength(p)
    decreases |p|
  {
    if p == [] {
      assert p + q == q;
    } else if IsDigit(p[0]) {
      assert (p + q)[1..] == p[1..] + q;
      DigitRunAppend(p[1..], q);
    }
  }

  lemma {:induction false} SpaceRunAppend(p: string, q: string)
    requires q == [] || !IsSpace(q[0])
    ensures SpaceRunLength(p + q) == SpaceRunLength(p)
    decreases |p|
  {
    if p == [] {
      assert p + q == q;
    } else if IsSpace(p[0]) {
      assert (p + q)[1..] == p[1..] + q;
      SpaceRunAppend(p[1..], q);
    }
  }

  /** `re.findall(r'\d+', s)`: the maximal digit runs, left to right. */
  function DigitRuns(s: string): (r: seq<string>)
    ensures forall i :: 0 <= i < |r| ==> r[i] != [] && AllDigits(r[i])
    decreases |s|
  {
    if s == [] then []
    else if IsDigit(s[0]) then
      var n := DigitRunLength(s);
      [s[..n]] + DigitRuns(s[n..])
    else DigitRuns(s[1..])
  }

  /** Runs cannot span a boundary followed by a non-digit, so the runs of a concatenation concatenate. */
  lemma {:induction false} DigitRunsAppend(p: string, q: string)
    requires q == [] || !IsDigit(q[0])
    ensures DigitRuns(p + q) == DigitRuns(p) + DigitRuns(q)
    decreases |p|
  {
    if p == [] {
      assert p + q == q;
    } else if IsDigit(p[0]) {
      var n := DigitRunLength(p);
      assert DigitRuns(p + q) == [p[..n]] + DigitRuns(p[n..] + q) by {
        DigitRunAppend(p, q);
        assert (p + q)[0] == p[0];
        assert (p + q)[..n] == p[..n];
        assert (p + q)[n..] == p[n..] + q;
      }
      DigitRunsAppend(p[n..], q);
    } else {
      assert DigitRuns(p + q) == DigitRuns(p[1..] + q) by {
        assert (p + q)[0] == p[0];
        assert (p + q)[1..] == p[1..] + q;
      }
      DigitRunsAppend(p[1..], q);
    }
  }

  /** The runs of a decimal numeral are the numeral itself. */
  lemma DigitRunsOfNumeral(n: nat)
    ensures DigitRuns(NatToString(n)) == [NatToString(n)]
  {
    var d := NatToString(n);
    DigitRunOfDigits(d, []);
    assert d + [] == d;
    assert d[..|d|] == d && d[|d|..] == [];
  }

  /** A leading non-digit is skipped. */
  lemma DigitRunsSkip(c: char, s: string)
    requires !IsDigit(c)
    ensures DigitRuns([c] + s) == DigitRuns(s)
  {
    assert ([c] + s)[1..] == s;
  }

  // ================================================================ _parse_defense_values

  /** The `i`-th number as a real, or 0 when there are fewer. */
  function NthOrZero(nums: seq<string>, i: nat): real
    requires forall k :: 0 <= k < |nums| ==> AllDigits(nums[k])
  {
    if i < |nums| then DigitsValue(nums[i]) as real else 0.0
  }

  /** The first three numbers as reals, padded with 0. */
  function Padded(nums: seq<string>): (r: seq<real>)
    requires forall k :: 0 <= k < |nums| ==> AllDigits(nums[k])
  {
    [NthOrZero(nums, 0), NthOrZero(nums, 1), NthOrZero(nums, 2)]
  }

  /**
   * `_parse_defense_values`: the first three integers of the string as
   * `[health, shield, armor]`; a missing value is 0, or raises in development mode.
   */
  function DefenseValues(s: string, devMode: bool): (r: Result<seq<real>>)
  {
    var nums := DigitRuns(s);
    if devMode && |nums| < 3 then Err("UnitDataMissingError: fewer than 3 defense values")
    else Ok(Padded(nums))
  }

  /** The `for i in range(3)` loop of `_parse_defense_values`. */
  method ParseDefenseValues(s: string, devMode: bool) returns (r: Result<seq<real>>)
    ensures r == DefenseValues(s, devMode)
  {
    var numbers := DigitRuns(s);
    var values: seq<real> := [];
    var i := 0;
    while i < 3
      invariant 0 <= i <= 3
      invariant |values| == i
      invariant forall k :: 0 <= k < i ==> values[k] == Padded(numbers)[k]
      invariant devMode ==> i <= |numbers|
    {
      if i < |numbers| {
        values := values + [DigitsValue(numbers[i]) as real];
      } else {
        if devMode {
          return Err("UnitDataMissingError: fewer than 3 defense values");
        }
        values := values + [0.0];
      }
      i := i + 1;
    }
    assert values == Padded(numbers);
    r := Ok(values);
  }

  /**
   * Outside development mode there are always exactly three values, each the
   * matching integer of the string or 0; in development mode the call raises
   * exactly when the string has fewer than three integers.
   */
  lemma DefenseValuesShape(s: string, devMode: bool)
    ensures DefenseValues(s, devMode).Err? <==> devMode && |DigitRuns(s)| < 3
    ensures var r := DefenseValues(s, devMode); var nums := DigitRuns(s);
      r.Ok? ==>
        |r.value| == 3 &&
        forall i :: 0 <= i < 3 ==> r.value[i] == if i < |nums| then DigitsValue(nums[i]) as real else 0.0
  {
  }

  /** A numeral followed by a non-digit contributes exactly itself as a run. */
  lemma NumeralThen(n: nat, c: char, rest: string)
    requires !IsDigit(c)
    ensures DigitRuns(NatToString(n) + ([c] + rest)) == [NatToString(n)] + DigitRuns(rest)
  {
    DigitRunsAppend(NatToString(n), [c] + rest);
    DigitRunsOfNumeral(n);
    DigitRunsSkip(c, rest);
  }

  /** A defense string as the unit files write it: `"health/shield/armor"`. */
  function DefenseText(health: nat, shield: nat, armor: nat): string
  {
    NatToString(health) + (['/'] + (NatToString(shield) + (['/'] + NatToString(armor))))
  }

  /** `"h/s/a"` written from three numbers parses back to those numbers, in either mode. */
  lemma DefenseRoundTrip(health: nat, shield: nat, armor: nat, devMode: bool)
    ensures DefenseValues(DefenseText(health, shield, armor), devMode) ==
      Ok([health as real, shield as real, armor as real])
  {
    var h, sh, a := NatToString(health), NatToString(shield), NatToString(armor);
    NumeralThen(health, '/', sh + (['/'] + a));
    NumeralThen(shield, '/', a);
    DigitRunsOfNumeral(armor);
    var nums := DigitRuns(DefenseText(health, shield, armor));
    assert nums == [h, sh, a];
    DigitsValueOfString(health);
    DigitsValueOfString(shield);
    DigitsValueOfString(armor);
  }

  // ================================================================ _extract_base_value

  /** The position of the first `)` in `s`, if there is one. */
  function CloseIndex(s: string): (r: Option<nat>)
    ensures r.Some? ==> r.value < |s| && s[r.value] == ')' && forall i :: 0 <= i < r.value ==> s[i] != ')'
    ensures r.None? ==> forall i :: 0 <= i < |s| ==> s[i] != ')'
  {
    if s == [] then None
    else if s[0] == ')' then Some(0)
    else match CloseIndex(s[1..])
      case None => None
      case Some(j) => Some(j + 1)
  }

  /** The length of the match of `\s*\([^)]*\)\s*` at the start of `s`, if it matches there. */
  function GroupMatchLength(s: string): (r: Option<nat>)
    ensures r.Some? ==> 0 < r.value <= |s|
  {
    var w := SpaceRunLength(s);
    if w < |s| && s[w] == '(' then
      match CloseIndex(s[w + 1..])
      case None => None
      case Some(j) =>
        var e := w + j + 2;
        Some(e + SpaceRunLength(s[e..]))
    else None
  }

  /** `re.sub(r'\s*\([^)]*\)\s*', '', s)`: every parenthesised part and the spaces around it removed. */
  function RemoveGroups(s: string): (r: string)
    ensures |r| <= |s|
    decreases |s|
  {
    if s == [] then []
    else match GroupMatchLength(s)
      case Some(n) => RemoveGroups(s[n..])
      case None => [s[0]] + RemoveGroups(s[1..])
  }

  /** The substitution adds no closing parenthesis. */
  lemma {:induction false} RemoveGroupsNoClose(s: string)
    requires ')' !in s
    ensures ')' !in RemoveGroups(s)
    decreases |s|
  {
    if s != [] {
      assert forall c :: c in s[1..] ==> c in s;
      match GroupMatchLength(s)
      case Some(n) =>
        assert forall c :: c in s[n..] ==> c in s;
        RemoveGroupsNoClose(s[n..]);
      case None =>
        RemoveGroupsNoClose(s[1..]);
    }
  }

  /** An opening parenthesis followed somewhere later by a closing one. */
  predicate HasGroup(s: string)
  {
    exists i, j :: 0 <= i < j < |s| && s[i] == '(' && s[j] == ')'
  }

  /** No parenthesised part survives the substitution. */
  lemma {:induction false} RemoveGroupsComplete(s: string)
    ensures !HasGroup(RemoveGroups(s))
    decreases |s|
  {
    if s != [] {
      match GroupMatchLength(s)
      case Some(n) =>
        RemoveGroupsComplete(s[n..]);
      case None =>
        var rest := RemoveGroups(s[1..]);
        RemoveGroupsComplete(s[1..]);
        var r := [s[0]] + rest;
        if s[0] == '(' {
          // no match at 0 means there is no `)` after the parenthesis
          assert SpaceRunLength(s) == 0;
          assert CloseIndex(s[1..]).None?;
          assert ')' !in s[1..];
          RemoveGroupsNoClose(s[1..]);
        }
        forall i, j | 0 <= i < j < |r| && r[i] == '(' ensures r[j] != ')' {
          if i > 0 {
            assert rest[i - 1] == '(';
          } else {
            assert r[j] == rest[j - 1] && rest[j - 1] in rest;
          }
        }
    }
  }

  /** Characters that can start neither a space run nor a group are kept as they are. */
  predicate Plain(c: char)
  {
    !IsSpace(c) && c != '('
  }

  lemma {:induction false} RemoveGroupsKeepsPlain(p: string, q: string)
    requires forall i :: 0 <= i < |p| ==> Plain(p[i])
    ensures RemoveGroups(p + q) == p + RemoveGroups(q)
    decreases |p|
  {
    if p == [] {
      assert p + q == q;
    } else {
      var s := p + q;
      assert RemoveGroups(s) == [p[0]] + RemoveGroups(p[1..] + q) by {
        assert s[0] == p[0];
        assert SpaceRunLength(s) == 0;
        assert GroupMatchLength(s) == None;
        assert s[1..] == p[1..] + q;
      }
      RemoveGroupsKeepsPlain(p[1..], q);
      calc {
        RemoveGroups(s);
        [p[0]] + (p[1..] + RemoveGroups(q));
        ([p[0]] + p[1..]) + RemoveGroups(q);
        { assert [p[0]] + p[1..] == p; }
        p + RemoveGroups(q);
      }
    }
  }

  /** A group at the end of the string, `" (" + inner + ")"`, is removed with the space before it. */
  lemma TrailingGroupRemoved(inner: string)
    requires ')' !in inner
    ensures RemoveGroups([' ', '('] + (inner + [')'])) == []
  {
    var g := [' ', '('] + (inner + [')']);
    assert SpaceRunLength(g) == 1 by {
      assert g[1..][0] == '(';
      assert SpaceRunLength(g[1..]) == 0;
    }
    assert g[2..] == inner + [')'];
    CloseIndexAfter(inner);
    assert GroupMatchLength(g) == Some(|g|);
    assert g[|g|..] == [];
  }

  lemma {:induction false} CloseIndexAfter(s: string)
    requires ')' !in s
    ensures CloseIndex(s + [')']) == Some(|s|)
    decreases |s|
  {
    if s != [] {
      assert (s + [')'])[1..] == s[1..] + [')'];
      CloseIndexAfter(s[1..]);
    }
  }

  /**
   * `_extract_base_value`: the first integer once parenthesised parts are
   * removed; 0 when there is none, or an error in development mode.
   */
  function ExtractBaseValue(s: string, devMode: bool): (r: Result<nat>)
    ensures r.Err? <==> devMode && DigitRuns(RemoveGroups(s)) == []
  {
    var runs := DigitRuns(RemoveGroups(s));
    if runs != [] then Ok(DigitsValue(runs[0]))
    else if devMode then Err("UnitDataMissingError: no base value")
    else Ok(0)
  }

  // ================================================================ _extract_upgrade_value

  /** The number matched by `\(\s*\+\s*(\d+)\s*\)` at the start of `s`, if it matches there. */
  function UpgradeAt(s: string): Option<nat>
  {
    if s == [] || s[0] != '(' then None
    else
      var a := 1 + SpaceRunLength(s[1..]);
      if a < |s| && s[a] == '+' then
        var b := a + 1 + SpaceRunLength(s[a + 1..]);
        var d := DigitRunLength(s[b..]);
        var c := b + d + SpaceRunLength(s[b + d..]);
        if d > 0 && c < |s| && s[c] == ')' then Some(DigitsValue(s[b..b + d])) else None
      else None
  }

  /** `_extract_upgrade_value` (and `_extract_armor_upgrade`): N of the first `(+N)`, else 0. */
  function ExtractUpgradeValue(s: string): nat
  {
    if s == [] then 0
    else match UpgradeAt(s)
      case Some(v) => v
      case None => ExtractUpgradeValue(s[1..])
  }

  /** Without an opening parenthesis there is no upgrade. */
  lemma {:induction false} NoParenthesisNoUpgrade(s: string)
    requires '(' !in s
    ensures ExtractUpgradeValue(s) == 0
    decreases |s|
  {
    if s != [] {
      assert s[0] != '(';
      assert forall c :: c in s[1..] ==> c in s;
      NoParenthesisNoUpgrade(s[1..]);
    }
  }

  /** The text a unit file writes for an upgrade bonus: `"(+N)"`. */
  function UpgradeText(n: nat): string
  {
    ['(', '+'] + (NatToString(n) + [')'])
  }

  /** `(+d)` with no spaces, at the start of `s`, matches with value `d`. */
  lemma UpgradeAtParts(s: string, d: string)
    requires AllDigits(d) && d != [] && |s| > 2 + |d|
    requires s[0] == '(' && s[1] == '+' && s[2 + |d|] == ')' && s[2..2 + |d|] == d
    requires SpaceRunLength(s[1..]) == 0 && SpaceRunLength(s[2..]) == 0
    requires DigitRunLength(s[2..]) == |d| && SpaceRunLength(s[2 + |d|..]) == 0
    ensures UpgradeAt(s) == Some(DigitsValue(d))
  {
  }

  lemma UpgradeAtText(n: nat, q: string)
    ensures UpgradeAt(UpgradeText(n) + q) == Some(n)
  {
    var d := NatToString(n);
    var s := UpgradeText(n) + q;
    assert s[0] == '(' && s[1] == '+';
    assert SpaceRunLength(s[1..]) == 0 by {
      assert s[1..][0] == '+';
    }
    assert SpaceRunLength(s[2..]) == 0 by {
      assert s[2..][0] == d[0];
    }
    assert DigitRunLength(s[2..]) == |d| by {
      assert s[2..] == d + ([')'] + q);
      DigitRunOfDigits(d, [')'] + q);
    }
    assert SpaceRunLength(s[2 + |d|..]) == 0 && s[2 + |d|] == ')' by {
      assert s[2 + |d|..] == [')'] + q;
    }
    assert s[2..2 + |d|] == d;
    UpgradeAtParts(s, d);
    DigitsValueOfString(n);
  }

  /** The first `(+N)` of a string wins, whatever precedes it as long as it opens no parenthesis. */
  lemma {:induction false} UpgradeRoundTrip(p: string, n: nat, q: string)
    requires '(' !in p
    ensures ExtractUpgradeValue(p + (UpgradeText(n) + q)) == n
    decreases |p|
  {
    var t := UpgradeText(n) + q;
    if p == [] {
      assert p + t == t;
      UpgradeAtText(n, q);
    } else {
      assert (p + t)[0] == p[0] != '(';
      assert (p + t)[1..] == p[1..] + t;
      assert forall c :: c in p[1..] ==> c in p;
      UpgradeRoundTrip(p[1..], n, q);
    }
  }

  /** Digits neither start a space run nor open a group. */
  lemma DigitsArePlain(d: string)
    requires AllDigits(d)
    ensures forall i :: 0 <= i < |d| ==> Plain(d[i])
  {
  }

  /** A damage value as the unit files write it: `"B (+U)"`. */
  function DamageText(base: nat, upgrade: nat): string
  {
    NatToString(base) + ([' '] + UpgradeText(upgrade))
  }

  /** The base of a damage value `"B (+U)"` is B, in either mode. */
  lemma DamageBase(base: nat, upgrade: nat, devMode: bool)
    ensures ExtractBaseValue(DamageText(base, upgrade), devMode) == Ok(base)
  {
    var b := NatToString(base);
    assert RemoveGroups(DamageText(base, upgrade)) == b by {
      var g := [' '] + UpgradeText(upgrade);
      assert g == [' ', '('] + ((['+'] + NatToString(upgrade)) + [')']);
      TrailingGroupRemoved(['+'] + NatToString(upgrade));
      DigitsArePlain(b);
      RemoveGroupsKeepsPlain(b, g);
      assert b + [] == b;
    }
    DigitRunsOfNumeral(base);
    DigitsValueOfString(base);
  }

  /** The upgrade of a damage value `"B (+U)"` is U. */
  lemma DamageUpgrade(base: nat, upgrade: nat)
    ensures ExtractUpgradeValue(DamageText(base, upgrade)) == upgrade
  {
    var b := NatToString(base);
    assert DamageText(base, upgrade) == (b + [' ']) + (UpgradeText(upgrade) + []);
    UpgradeRoundTrip(b + [' '], upgrade, []);
  }

  // ================================================================ _extract_first_dps / _extract_second_dps

  /** A match of `\d+\.?\d*`: its integer digits, whether a point follows, and the digits after it. */
  datatype NumberToken = NumberToken(whole: string, point: bool, fraction: string)

  predicate ValidToken(t: NumberToken)
  {
    t.whole != [] && AllDigits(t.whole) && AllDigits(t.fraction) && (!t.point ==> t.fraction == [])
  }

  function Pow10(k: nat): (r: nat)
    ensures r >= 1
  {
    if k == 0 then 1 else 10 * Pow10(k - 1)
  }

  /** `float(text)` of a matched number. */
  function TokenValue(t: NumberToken): real
    requires ValidToken(t)
  {
    DigitsValue(t.whole) as real + (DigitsValue(t.fraction) as real) / (Pow10(|t.fraction|) as real)
  }

  /** The text of a matched number. */
  function TokenText(t: NumberToken): string
  {
    t.whole + (if t.point then ['.'] + t.fraction else [])
  }

  /** The match of `\d+\.?\d*` at the start of `s`, which starts with a digit, and its length. */
  function TokenAt(s: string): (r: (NumberToken, nat))
    requires s != [] && IsDigit(s[0])
    ensures ValidToken(r.0) && 0 < r.1 <= |s| && s[..r.1] == TokenText(r.0)
  {
    var n := DigitRunLength(s);
    if n < |s| && s[n] == '.' then
      var m := DigitRunLength(s[n + 1..]);
      assert s[..n + 1 + m] == s[..n] + (['.'] + s[n + 1..n + 1 + m]);
      (NumberToken(s[..n], true, s[n + 1..n + 1 + m]), n + 1 + m)
    else (NumberToken(s[..n], false, []), n)
  }

  /** `re.findall(r'(\d+\.?\d*)', s)`: the numbers of the string, left to right. */
  function NumberTokens(s: string): (r: seq<NumberToken>)
    ensures forall i :: 0 <= i < |r| ==> ValidToken(r[i])
    decreases |s|
  {
    if s == [] then []
    else if IsDigit(s[0]) then
      var tk := TokenAt(s);
      [tk.0] + NumberTokens(s[tk.1..])
    else NumberTokens(s[1..])
  }

  /** `_extract_first_dps` (and `_extract_first_cooldown`): the first number, or 0. */
  function FirstNumber(s: string): real
  {
    var ts := NumberTokens(s);
    if ts == [] then 0.0 else TokenValue(ts[0])
  }

  /** `_extract_second_dps` (and `_extract_second_cooldown`): the second number, or 0. */
  function SecondNumber(s: string): real
  {
    var ts := NumberTokens(s);
    if |ts| > 1 then TokenValue(ts[1]) else 0.0
  }

  /** A character that ends a number: neither a digit nor a point. */
  predicate Separator(c: char)
  {
    !IsDigit(c) && c != '.'
  }

  /** A number written out and followed by a separator is read back as itself. */
  lemma TokenAtText(t: NumberToken, q: string)
    requires ValidToken(t)
    requires q == [] || Separator(q[0])
    ensures var s := TokenText(t) + q; TokenAt(s) == (t, |TokenText(t)|)
  {
    var s := TokenText(t) + q;
    var w := t.whole;
    if t.point {
      var rest := t.fraction + q;
      assert s == w + (['.'] + rest);
      DigitRunOfDigits(w, ['.'] + rest);
      assert s[|w|] == '.';
      assert s[|w| + 1..] == rest;
      DigitRunOfDigits(t.fraction, q);
      assert s[..|w|] == w;
      assert s[|w| + 1..|w| + 1 + |t.fraction|] == t.fraction;
    } else {
      assert s == w + q;
      DigitRunOfDigits(w, q);
      assert s[..|w|] == w;
    }
  }

  /** Reading the numbers of a written number followed by a separator yields it first. */
  lemma NumberTokensText(t: NumberToken, q: string)
    requires ValidToken(t)
    requires q == [] || Separator(q[0])
    ensures NumberTokens(TokenText(t) + q) == [t] + NumberTokens(q)
  {
    var s := TokenText(t) + q;
    TokenAtText(t, q);
    assert s[0] == t.whole[0];
    assert s[|TokenText(t)|..] == q;
  }

  lemma NumberTokensSkip(c: char, s: string)
    requires !IsDigit(c)
    ensures NumberTokens([c] + s) == NumberTokens(s)
  {
    assert ([c] + s)[1..] == s;
  }

  /** A DPS or cooldown pair as the unit files write it: `"x y"`. */
  function PairText(x: NumberToken, y: NumberToken): string
  {
    TokenText(x) + ([' '] + TokenText(y))
  }

  /** The first and second numbers of a written pair are the pair's numbers. */
  lemma PairRoundTrip(x: NumberToken, y: NumberToken)
    requires ValidToken(x) && ValidToken(y)
    ensures FirstNumber(PairText(x, y)) == TokenValue(x)
    ensures SecondNumber(PairText(x, y)) == TokenValue(y)
  {
    NumberTokensText(x, [' '] + TokenText(y));
    NumberTokensSkip(' ', TokenText(y));
    NumberTokensText(y, []);
    assert TokenText(y) + [] == TokenText(y);
    assert NumberTokens(PairText(x, y)) == [x, y];
  }

  /** A whole number reads back as its value. */
  lemma WholeTokenValue(n: nat)
    ensures ValidToken(NumberToken(NatToString(n), false, []))
    ensures TokenValue(NumberToken(NatToString(n), false, [])) == n as real
  {
    DigitsValueOfString(n);
  }

  // ================================================================ bonus damage

  /** `c` matches `\w`: an ASCII letter, digit or underscore. */
  predicate IsWordChar(c: char)
  {
    'a' <= c <= 'z' || 'A' <= c <= 'Z' || IsDigit(c) || c == '_'
  }

  function WordRunLength(s: string): (n: nat)
    ensures n <= |s|
    ensures forall i :: 0 <= i < n ==> IsWordChar(s[i])
    ensures n < |s| ==> !IsWordChar(s[n])
  {
    if s != [] && IsWordChar(s[0]) then 1 + WordRunLength(s[1..]) else 0
  }

  /** `vs`, in any letter case, at the start of `s`. */
  predicate StartsWithVs(s: string)
  {
    |s| >= 2 && LowerChar(s[0]) == 'v' && LowerChar(s[1]) == 's'
  }

  /** The match of `(\d+)\s*vs` (ignoring case) at the start of `s`: its number and its length. */
  function BonusHeadAt(s: string): (r: Option<(nat, nat)>)
    ensures r.Some? ==> r.value.1 <= |s|
  {
    var d := DigitRunLength(s);
    var e := d + SpaceRunLength(s[d..]);
    if d > 0 && StartsWithVs(s[e..]) then Some((DigitsValue(s[..d]), e + 2)) else None
  }

  /** `_extract_bonus_base_value`: the number of the first `N vs`, or 0. */
  function ExtractBonusBaseValue(s: string): nat
  {
    if s == [] then 0
    else match BonusHeadAt(s)
      case Some(m) => m.0
      case None => ExtractBonusBaseValue(s[1..])
  }

  /** The word matched by `vs\s+(\w+)` (ignoring case) at the start of `s`. */
  function BonusTargetAt(s: string): Option<string>
  {
    if StartsWithVs(s) then
      var w := SpaceRunLength(s[2..]);
      var k := WordRunLength(s[2 + w..]);
      if w > 0 && k > 0 then Some(s[2 + w..2 + w + k]) else None
    else None
  }

  /** `_extract_bonus_target`: the word after the first `vs `, capitalised, or "". */
  function ExtractBonusTarget(s: string): string
  {
    if s == [] then ""
    else match BonusTargetAt(s)
      case Some(w) => Capitalize(w)
      case None => ExtractBonusTarget(s[1..])
  }

  /** The length of the part of `s` before its first line break: what `.*` can cover. */
  function LineLength(s: string): (n: nat)
    ensures n <= |s|
  {
    if s == [] || s[0] == '\n' then 0 else 1 + LineLength(s[1..])
  }

  /** The `(+N)` starting last at or before position `hi`: greedy `.*` tries the longest prefix first. */
  function LastUpgradeFrom(s: string, hi: nat): Option<nat>
    requires hi <= |s|
    decreases hi
  {
    match UpgradeAt(s[hi..])
    case Some(v) => Some(v)
    case None => if hi == 0 then None else LastUpgradeFrom(s, hi - 1)
  }

  /** The second group of `(\d+)\s*vs.*\(\s*\+\s*(\d+)\s*\)` (ignoring case) matched at the start of `s`. */
  function BonusUpgradeAt(s: string): Option<nat>
  {
    match BonusHeadAt(s)
    case None => None
    case Some(m) =>
      var rest := s[m.1..];
      LastUpgradeFrom(rest, LineLength(rest))
  }

  /** `_extract_bonus_upgrade_value`: the upgrade of the first `N vs ... (+M)` on one line, or 0. */
  function ExtractBonusUpgradeValue(s: string): nat
  {
    if s == [] then 0
    else match BonusUpgradeAt(s)
      case Some(v) => v
      case None => ExtractBonusUpgradeValue(s[1..])
  }

  /** A bonus as the unit files write it: `"N vs Target (+M)"`. */
  function BonusText(n: nat, target: string, m: nat): string
  {
    BonusShape(NatToString(n), target, UpgradeText(m))
  }

  predicate IsWord(w: string)
  {
    w != [] && forall i :: 0 <= i < |w| ==> IsWordChar(w[i])
  }

  /** `d vs target u`, the shape of a written bonus with its numeral and upgrade left open. */
  function BonusShape(d: string, target: string, u: string): string
  {
    d + ([' ', 'v', 's', ' '] + (target + ([' '] + u)))
  }

  /** Where the pieces of a bonus sit. */
  lemma BonusShapeHead(d: string, target: string, u: string)
    ensures var s := BonusShape(d, target, u);
      |s| == |d| + 5 + |target| + |u| &&
      s[..|d|] == d && s[|d|] == ' ' && s[|d| + 1] == 'v' && s[|d| + 2] == 's' &&
      s[|d| + 3..] == ([' '] + (target + [' '])) + u
  {
    var t := [' ', 'v', 's', ' '] + (target + ([' '] + u));
    var s := d + t;
    assert s[|d|..] == t;
    assert t[3..] == ([' '] + (target + [' '])) + u;
  }

  lemma BonusShapeTarget(d: string, target: string, u: string)
    ensures var s := BonusShape(d, target, u);
      s[|d| + 1..][..3] == ['v', 's', ' '] &&
      s[|d| + 1..][3..3 + |target|] == target && s[|d| + 1..][3 + |target|] == ' '
  {
    var v := ['v', 's', ' '] + (target + ([' '] + u));
    assert BonusShape(d, target, u)[|d| + 1..] == v;
    assert v[3..] == target + ([' '] + u);
  }

  /** `N vs` read off positions of `s`. */
  lemma BonusHeadParts(s: string, d: string)
    requires AllDigits(d) && d != [] && |s| > |d| + 2 && s[..|d|] == d
    requires s[|d|] == ' ' && s[|d| + 1] == 'v' && s[|d| + 2] == 's'
    ensures BonusHeadAt(s) == Some((DigitsValue(d), |d| + 3))
  {
    assert DigitRunLength(s) == |d| by {
      assert s == d + s[|d|..];
      DigitRunOfDigits(d, s[|d|..]);
    }
    assert SpaceRunLength(s[|d|..]) == 1 by {
      assert s[|d|..][1..] == s[|d| + 1..];
    }
  }

  /** The head `N vs` of a written bonus. */
  lemma BonusHeadOfText(n: nat, target: string, m: nat)
    ensures BonusHeadAt(BonusText(n, target, m)) == Some((n, |NatToString(n)| + 3))
  {
    BonusShapeHead(NatToString(n), target, UpgradeText(m));
    BonusHeadParts(BonusText(n, target, m), NatToString(n));
    DigitsValueOfString(n);
  }

  /** The base of a written bonus is its number. */
  lemma BonusBaseRoundTrip(n: nat, target: string, m: nat)
    ensures ExtractBonusBaseValue(BonusText(n, target, m)) == n
  {
    BonusHeadOfText(n, target, m);
  }

  /** Characters other than `v`/`V` cannot start a `vs`, so the target scan passes over them. */
  lemma {:induction false} TargetScanSkips(s: string, k: nat)
    requires k <= |s|
    requires forall i :: 0 <= i < k ==> LowerChar(s[i]) != 'v'
    ensures ExtractBonusTarget(s) == ExtractBonusTarget(s[k..])
    decreases k
  {
    if k > 0 {
      assert !StartsWithVs(s);
      assert s[1..][k - 1..] == s[k..];
      TargetScanSkips(s[1..], k - 1);
    }
  }

  /** `vs W` read off positions of `v`, for a word `w` followed by a non-word character. */
  lemma TargetAtParts(v: string, w: string)
    requires IsWord(w) && |v| > 3 + |w| && v[0] == 'v' && v[1] == 's' && v[2] == ' '
    requires v[3..3 + |w|] == w && !IsWordChar(v[3 + |w|])
    ensures BonusTargetAt(v) == Some(w)
  {
    assert SpaceRunLength(v[2..]) == 1 by {
      assert v[2..][1] == v[3] == w[0];
    }
    assert WordRunLength(v[3..]) == |w| by {
      assert v[3..] == w + v[3 + |w|..];
      WordRunOfWord(w, v[3 + |w|..]);
    }
  }

  /** The target of a bonus is its word, capitalised. */
  lemma BonusShapeTargetRoundTrip(d: string, target: string, u: string)
    requires AllDigits(d) && IsWord(target)
    ensures ExtractBonusTarget(BonusShape(d, target, u)) == Capitalize(target)
  {
    var s := BonusShape(d, target, u);
    BonusShapeHead(d, target, u);
    BonusShapeTarget(d, target, u);
    assert forall i :: 0 <= i <= |d| ==> LowerChar(s[i]) != 'v' by {
      forall i | 0 <= i <= |d| ensures LowerChar(s[i]) != 'v' {
        if i < |d| {
          assert s[i] == s[..|d|][i];
        }
      }
    }
    TargetScanSkips(s, |d| + 1);
    TargetAtParts(s[|d| + 1..], target);
  }

  /** The target of a written bonus is its word, capitalised. */
  lemma BonusTargetRoundTrip(n: nat, target: string, m: nat)
    requires IsWord(target)
    ensures ExtractBonusTarget(BonusText(n, target, m)) == Capitalize(target)
  {
    BonusShapeTargetRoundTrip(NatToString(n), target, UpgradeText(m));
  }

  lemma {:induction false} WordRunOfWord(w: string, q: string)
    requires forall i :: 0 <= i < |w| ==> IsWordChar(w[i])
    requires q == [] || !IsWordChar(q[0])
    ensures WordRunLength(w + q) == |w|
    decreases |w|
  {
    if w == [] {
      assert w + q == q;
    } else {
      assert (w + q)[1..] == w[1..] + q;
      WordRunOfWord(w[1..], q);
    }
  }

  lemma {:induction false} LineLengthNoBreak(s: string)
    requires '\n' !in s
    ensures LineLength(s) == |s|
    decreases |s|
  {
    if s != [] {
      assert forall c :: c in s[1..] ==> c in s;
      LineLengthNoBreak(s[1..]);
    }
  }

  /** No `(` at a position in (lo, hi], so no `(+N)` starts there. */
  predicate NoOpenIn(s: string, lo: nat, hi: nat)
  {
    forall k :: lo < k <= hi && k < |s| ==> s[k] != '('
  }

  /** Between `lo` and `hi` no `(+N)` starts, so the backwards search from `hi` finds what it finds from `lo`. */
  lemma LastUpgradeSkips(s: string, lo: nat, hi: nat)
    requires lo <= hi <= |s|
    requires NoOpenIn(s, lo, hi)
    ensures LastUpgradeFrom(s, hi) == LastUpgradeFrom(s, lo)
  {
    LastUpgradeSteps(s, lo, hi);
    SameRun(Backwards(s), lo, hi);
  }

  /** The backwards search from each position of `s`. */
  ghost function Backwards(s: string): nat -> Option<nat>
  {
    (k: nat) => if k <= |s| then LastUpgradeFrom(s, k) else None
  }

  lemma LastUpgradeSteps(s: string, lo: nat, hi: nat)
    requires lo <= hi <= |s|
    requires NoOpenIn(s, lo, hi)
    ensures forall k :: lo <= k < hi ==> SameNext(Backwards(s), k)
  {
    forall k | lo <= k < hi ensures SameNext(Backwards(s), k) {
      assert k + 1 == |s| || s[k + 1] != '(';
      LastUpgradeStep(s, k);
    }
  }

  /** `f` takes the same value at `k` and `k + 1`. */
  ghost predicate SameNext<T>(f: nat -> T, k: nat)
  {
    f(k + 1) == f(k)
  }

  lemma {:induction false} SameRun<T>(f: nat -> T, lo: nat, hi: nat)
    requires lo <= hi
    requires forall k :: lo <= k < hi ==> SameNext(f, k)
    ensures f(hi) == f(lo)
    decreases hi
  {
    if hi > lo {
      assert SameNext(f, hi - 1);
      SameRun(f, lo, hi - 1);
    }
  }

  lemma LastUpgradeHere(s: string, hi: nat)
    requires hi <= |s| && UpgradeAt(s[hi..]).Some?
    ensures LastUpgradeFrom(s, hi) == UpgradeAt(s[hi..])
  {
  }

  /** No `(+N)` starts at `k + 1`, so the backwards search from there moves on to `k`. */
  lemma LastUpgradeStep(s: string, k: nat)
    requires k < |s| && (k + 1 == |s| || s[k + 1] != '(')
    ensures SameNext(Backwards(s), k)
  {
    NoOpenNoUpgrade(s, k + 1);
    assert LastUpgradeFrom(s, k + 1) == LastUpgradeFrom(s, k);
  }

  /** Only a `(` can start a `(+N)`. */
  lemma NoOpenNoUpgrade(s: string, k: nat)
    requires k <= |s| && (k == |s| || s[k] != '(')
    ensures UpgradeAt(s[k..]).None?
  {
    if k < |s| {
      assert s[k..][0] == s[k];
    }
  }

  /** The last `(+M)` of a line that ends with it is that one. */
  lemma LastUpgradeOfLine(mid: string, m: nat)
    requires '\n' !in mid
    ensures var r := mid + UpgradeText(m); LastUpgradeFrom(r, LineLength(r)) == Some(m)
  {
    var u := UpgradeText(m);
    var r := mid + u;
    var lo := |mid|;
    assert forall k :: lo < k <= |r| ==> k == |r| || r[k] != '(' by {
      forall k | lo < k < |r| ensures r[k] != '(' {
        var d := NatToString(m);
        assert r[k] == u[k - lo];
        if k - lo >= 2 && k - lo < 2 + |d| {
          assert u[k - lo] == d[k - lo - 2];
        }
      }
    }
    assert '\n' !in r by {
      forall i | 0 <= i < |r| ensures r[i] != '\n' {
        if i < lo {
          assert r[i] == mid[i];
        } else {
          var d := NatToString(m);
          assert r[i] == u[i - lo];
          if i - lo >= 2 && i - lo < 2 + |d| {
            assert u[i - lo] == d[i - lo - 2];
          }
        }
      }
    }
    LineLengthNoBreak(r);
    assert r[lo..] == u + [];
    UpgradeAtText(m, []);
    LastUpgradeSkips(r, lo, |r|);
    LastUpgradeHere(r, lo);
  }

  /** The words of a written bonus hold no line break. */
  lemma MidNoBreak(target: string)
    requires IsWord(target)
    ensures '\n' !in [' '] + (target + [' '])
  {
    var mid := [' '] + (target + [' ']);
    forall i | 0 <= i < |mid| ensures mid[i] != '\n' {
      if 0 < i <= |target| {
        assert mid[i] == target[i - 1];
      }
    }
  }

  /** Once the head `N vs` is found, the upgrade is the last `(+M)` of the rest of the line. */
  lemma BonusUpgradeAtParts(s: string, head: (nat, nat), mid: string, m: nat)
    requires BonusHeadAt(s) == Some(head)
    requires head.1 <= |s| && s[head.1..] == mid + UpgradeText(m)
    requires '\n' !in mid
    ensures BonusUpgradeAt(s) == Some(m)
  {
    LastUpgradeOfLine(mid, m);
  }

  /** The upgrade of a written bonus is its `(+M)`. */
  lemma BonusUpgradeRoundTrip(n: nat, target: string, m: nat)
    requires IsWord(target)
    ensures ExtractBonusUpgradeValue(BonusText(n, target, m)) == m
  {
    var d := NatToString(n);
    BonusHeadOfText(n, target, m);
    BonusShapeHead(d, target, UpgradeText(m));
    MidNoBreak(target);
    BonusUpgradeAtParts(BonusText(n, target, m), (n, |d| + 3), [' '] + (target + [' ']), m);
  }

  // ================================================================ lists

  /** `str(n)` for an integer. */
  function IntToString(i: int): string
  {
    if i < 0 then ['-'] + NatToString(-i) else NatToString(i)
  }

  /**
   * `str(v)`. Floats, lists and dictionaries are written by `render`, which
   * stands for Python's own float formatting and `repr` of containers.
   */
  function PyStr(v: Json, render: Json -> string): string
  {
    match v
    case JNull => "None"
    case JBool(b) => if b then "True" else "False"
    case JInt(i) => IntToString(i)
    case JStr(t) => t
    case _ => render(v)
  }

  /** `[str(item).strip() for item in items if item]`. */
  function ListItems(items: seq<Json>, render: Json -> string): (r: seq<string>)
    ensures |r| <= |items|
  {
    if items == [] then []
    else
      var rest := ListItems(items[1..], render);
      if Truthy(items[0]) then [Strip(PyStr(items[0], render))] + rest else rest
  }

  /** `[item.strip() for item in parts if item.strip()]`. */
  function NonEmptyStripped(parts: seq<string>): (r: seq<string>)
    ensures |r| <= |parts|
  {
    if parts == [] then []
    else
      var rest := NonEmptyStripped(parts[1..]);
      if Strip(parts[0]) != [] then [Strip(parts[0])] + rest else rest
  }

  /** `_ensure_list`: any JSON value as a list of strings; dev mode rejects an empty outcome. */
  function EnsureList(value: Json, render: Json -> string, devMode: bool): Result<seq<string>>
  {
    match value
    case JList(items) =>
      var r := ListItems(items, render);
      if r == [] && devMode then Err("empty list") else Ok(r)
    case JStr(t) =>
      var r := NonEmptyStripped(Split(t, ','));
      if r == [] && devMode then Err("no list in string") else Ok(r)
    case JNull => if devMode then Err("value is None") else Ok([])
    case _ => Ok([Strip(PyStr(value, render))])
  }

  /** A string that `strip()` leaves alone and that is not empty. */
  predicate Stripped(t: string)
  {
    t != [] && !IsSpace(t[0]) && !IsSpace(t[|t| - 1])
  }

  lemma StrippedStrip(t: string)
    requires Stripped(t)
    ensures Strip(t) == t
  {
  }

  /** An item is listed exactly when some truthy element renders to it. */
  lemma {:induction false} ListItemsExact(items: seq<Json>, render: Json -> string, x: string)
    ensures x in ListItems(items, render) <==>
      exists i :: 0 <= i < |items| && Truthy(items[i]) && Strip(PyStr(items[i], render)) == x
    decreases |items|
  {
    if items != [] {
      ListItemsExact(items[1..], render, x);
      if exists i :: 1 <= i < |items| && Truthy(items[i]) && Strip(PyStr(items[i], render)) == x {
        var i :| 1 <= i < |items| && Truthy(items[i]) && Strip(PyStr(items[i], render)) == x;
        assert items[1..][i - 1] == items[i];
      }
      if exists i :: 0 <= i < |items| - 1 && Truthy(items[1..][i]) && Strip(PyStr(items[1..][i], render)) == x {
        var i :| 0 <= i < |items| - 1 && Truthy(items[1..][i]) && Strip(PyStr(items[1..][i], render)) == x;
        assert items[i + 1] == items[1..][i];
      }
    }
  }

  /** A list of strings already stripped and non-empty comes back unchanged. */
  lemma {:induction false} ListItemsOfStrings(ts: seq<string>, render: Json -> string)
    requires forall i :: 0 <= i < |ts| ==> Stripped(ts[i])
    ensures ListItems(seq(|ts|, i requires 0 <= i < |ts| => JStr(ts[i])), render) == ts
    decreases |ts|
  {
    var items := seq(|ts|, i requires 0 <= i < |ts| => JStr(ts[i]));
    if ts != [] {
      assert items[1..] == seq(|ts| - 1, i requires 0 <= i < |ts| - 1 => JStr(ts[1..][i]));
      ListItemsOfStrings(ts[1..], render);
      StrippedStrip(ts[0]);
    }
  }

  /** Splitting `a,b,...` on commas gives back the comma-free parts. */
  lemma {:induction false} SplitJoin(ps: seq<string>)
    requires ps != []
    requires forall i :: 0 <= i < |ps| ==> ',' !in ps[i]
    ensures Split(Join([','], ps), ',') == ps
    decreases |ps|
  {
    if |ps| == 1 {
      BeforeFirstOfPlain(ps[0], []);
    } else {
      var rest := Join([','], ps[1..]);
      assert Join([','], ps) == ps[0] + ([','] + rest);
      SplitCons(ps[0], rest);
      SplitJoin(ps[1..]);
    }
  }

  /** A comma-free head followed by a comma splits off as the first part. */
  lemma SplitCons(p: string, rest: string)
    requires ',' !in p
    ensures Split(p + ([','] + rest), ',') == [p] + Split(rest, ',')
  {
    var s := p + ([','] + rest);
    BeforeFirstOfPlain(p, [','] + rest);
    assert s[|p| + 1..] == rest;
  }

  lemma {:induction false} BeforeFirstOfPlain(p: string, q: string)
    requires ',' !in p
    requires q == [] || q[0] == ','
    ensures BeforeFirst(p + q, ',') == p
    decreases |p|
  {
    if p == [] {
      assert p + q == q;
    } else {
      assert (p + q)[1..] == p[1..] + q;
      BeforeFirstOfPlain(p[1..], q);
    }
  }

  lemma {:induction false} NonEmptyStrippedOfStripped(ps: seq<string>)
    requires forall i :: 0 <= i < |ps| ==> Stripped(ps[i])
    ensures NonEmptyStripped(ps) == ps
    decreases |ps|
  {
    if ps != [] {
      StrippedStrip(ps[0]);
      NonEmptyStrippedOfStripped(ps[1..]);
    }
  }

  /** A comma-separated list of stripped, comma-free items is read back item by item. */
  lemma CommaListRoundTrip(ps: seq<string>, render: Json -> string, devMode: bool)
    requires ps != []
    requires forall i :: 0 <= i < |ps| ==> Stripped(ps[i]) && ',' !in ps[i]
    ensures EnsureList(JStr(Join([','], ps)), render, devMode) == Ok(ps)
  {
    SplitJoin(ps);
    NonEmptyStrippedOfStripped(ps);
  }

  /** A JSON list of stripped strings is returned as it is. */
  lemma StringListRoundTrip(ts: seq<string>, render: Json -> string, devMode: bool)
    requires ts != []
    requires forall i :: 0 <= i < |ts| ==> Stripped(ts[i])
    ensures EnsureList(JList(seq(|ts|, i requires 0 <= i < |ts| => JStr(ts[i]))), render, devMode) == Ok(ts)
  {
    ListItemsOfStrings(ts, render);
  }

  /** Outside dev mode `_ensure_list` never raises; in dev mode it raises exactly on an empty outcome. */
  lemma EnsureListErrors(value: Json, render: Json -> string, devMode: bool)
    ensures var r := EnsureList(value, render, devMode);
      (r.Err? <==> devMode && (value.JNull? || (value.JList? && ListItems(value.items, render) == []) ||
                               (value.JStr? && NonEmptyStripped(Split(value.s, ',')) == []))) &&
      (r.Ok? && value.JNull? ==> r.value == []) &&
      (r.Ok? && !value.JList? && !value.JStr? && !value.JNull? ==> |r.value| == 1)
  {
  }

  // ================================================================ numbers from a record

  /** The number of a matched `\d+\.?\d*`: `int(...)` without a point, `float(...)` with one. */
  function TokenNumber(t: NumberToken): Json
    requires ValidToken(t)
  {
    if t.point then JNum(TokenValue(t)) else JInt(DigitsValue(t.whole))
  }

  /** What a present key yields: its number as it is, or the first number written in its string. */
  function NumericOf(v: Json): Option<Json>
  {
    match v
    case JInt(_) => Some(v)
    case JNum(_) => Some(v)
    case JBool(_) => Some(v)
    case JStr(t) =>
      var ts := NumberTokens(t);
      if ts != [] then Some(TokenNumber(ts[0])) else None
    case _ => None
  }

  /** The loop of `_safe_get_numeric` over `keys`, as a value. */
  function NumericFrom(fields: map<string, Json>, keys: seq<string>, default: Json, devMode: bool): Result<Json>
    decreases |keys|
  {
    if keys == [] then (if devMode then Err("no numeric field") else Ok(default))
    else if keys[0] in fields && NumericOf(fields[keys[0]]).Some? then Ok(NumericOf(fields[keys[0]]).value)
    else if keys[0] in fields && fields[keys[0]].JStr? && devMode then Err("no number in string")
    else NumericFrom(fields, keys[1..], default, devMode)
  }

  /** `_safe_get_numeric`. */
  function SafeNumeric(data: Json, keys: seq<string>, default: Json, devMode: bool): Result<Json>
  {
    if !data.JObj? then (if devMode then Err("not a dictionary") else Ok(default))
    else NumericFrom(data.fields, keys, default, devMode)
  }

  /** `_safe_get_numeric`: tries the keys in order and stops at the first that yields a number. */
  method SafeGetNumeric(data: Json, keys: seq<string>, default: Json, devMode: bool) returns (r: Result<Json>)
    ensures r == SafeNumeric(data, keys, default, devMode)
  {
    if !data.JObj? {
      if devMode {
        return Err("not a dictionary");
      }
      return Ok(default);
    }
    var i := 0;
    while i < |keys|
      invariant 0 <= i <= |keys|
      invariant SafeNumeric(data, keys, default, devMode) == NumericFrom(data.fields, keys[i..], default, devMode)
    {
      assert keys[i..][1..] == keys[i + 1..];
      var key := keys[i];
      if key in data.fields {
        var v := data.fields[key];
        if v.JInt? || v.JNum? || v.JBool? {
          return Ok(v);
        }
        if v.JStr? {
          var ts := NumberTokens(v.s);
          if ts != [] {
            return Ok(TokenNumber(ts[0]));
          } else if devMode {
            return Err("no number in string");
          }
        }
      }
      i := i + 1;
    }
    if devMode {
      return Err("no numeric field");
    }
    return Ok(default);
  }

  /** Outside dev mode the answer is always a value: a key's number or the default. */
  lemma {:induction false} NumericFromSource(fields: map<string, Json>, keys: seq<string>, default: Json, devMode: bool)
    ensures var r := NumericFrom(fields, keys, default, devMode);
      (!devMode ==> r.Ok?) &&
      (r.Ok? ==> (!devMode && r.value == default) ||
                 exists k :: k in keys && k in fields && NumericOf(fields[k]) == Some(r.value))
    decreases |keys|
  {
    if keys != [] {
      NumericFromSource(fields, keys[1..], default, devMode);
      var r := NumericFrom(fields, keys, default, devMode);
      if r.Ok? && !(keys[0] in fields && NumericOf(fields[keys[0]]).Some?) && !(!devMode && r.value == default) {
        var k :| k in keys[1..] && k in fields && NumericOf(fields[k]) == Some(r.value);
        assert k in keys;
      }
    }
  }

  lemma SafeNumericSource(data: Json, keys: seq<string>, default: Json, devMode: bool)
    ensures var r := SafeNumeric(data, keys, default, devMode);
      (!devMode ==> r.Ok?) &&
      (r.Ok? ==> (!devMode && r.value == default) ||
                 (data.JObj? && exists k :: k in keys && k in data.fields && NumericOf(data.fields[k]) == Some(r.value)))
  {
    if data.JObj? {
      NumericFromSource(data.fields, keys, default, devMode);
    }
  }

  /** The first key present with a number wins when the keys before it are all absent. */
  lemma {:induction false} NumericFromFirstPresent(fields: map<string, Json>, keys: seq<string>, i: nat, default: Json, devMode: bool)
    requires i < |keys| && keys[i] in fields && NumericOf(fields[keys[i]]).Some?
    requires forall j :: 0 <= j < i ==> keys[j] !in fields
    ensures NumericFrom(fields, keys, default, devMode) == Ok(NumericOf(fields[keys[i]]).value)
    decreases i
  {
    if i > 0 {
      NumericFromFirstPresent(fields, keys[1..], i - 1, default, devMode);
    }
  }

  lemma SafeNumericFirstPresent(fields: map<string, Json>, keys: seq<string>, i: nat, default: Json, devMode: bool)
    requires i < |keys| && keys[i] in fields && NumericOf(fields[keys[i]]).Some?
    requires forall j :: 0 <= j < i ==> keys[j] !in fields
    ensures SafeNumeric(JObj(fields), keys, default, devMode) == Ok(NumericOf(fields[keys[i]]).value)
  {
    NumericFromFirstPresent(fields, keys, i, default, devMode);
  }

  /** A string that starts with a whole number yields that number as an `int`. */
  lemma LeadingIntOfString(n: nat, q: string)
    requires q == [] || Separator(q[0])
    ensures NumericOf(JStr(NatToString(n) + q)) == Some(JInt(n))
  {
    var t := NumberToken(NatToString(n), false, []);
    assert TokenText(t) == NatToString(n);
    WholeTokenValue(n);
    NumberTokensText(t, q);
    DigitsValueOfString(n);
  }

  // ================================================================ data integrity

  /** The three sections `_validate_data_integrity` checks. */
  datatype Section = Basic | Cost | UnitStats

  datatype MissingField = MissingField(section: Section, field: string)

  /** `REQUIRED_FIELDS` for the sections that are checked. */
  function RequiredFields(section: Section): seq<string>
  {
    match section
    case Basic => ["description"]
    case Cost => ["mineral", "vespene", "supply"]
    case UnitStats => ["health", "armor", "speed"]
  }

  /** The section's container: the record itself, or `data.get(name, {})`. */
  function SectionOf(data: map<string, Json>, section: Section): Json
  {
    match section
    case Basic => JObj(data)
    case Cost => GetOr(data, "cost", JObj(map[]))
    case UnitStats => GetOr(data, "unit_stats", JObj(map[]))
  }

  /** The fields of `fields` that `container` lacks, in order. */
  function MissingIn(container: Json, fields: seq<string>): Result<seq<string>>
    decreases |fields|
  {
    if fields == [] then Ok([])
    else
      match MissingIn(container, fields[..|fields| - 1])
      case Err(e) => Err(e)
      case Ok(ms) =>
        match PyIn(container, fields[|fields| - 1])
        case Err(e) => Err(e)
        case Ok(present) => Ok(if present then ms else ms + [fields[|fields| - 1]])
  }

  /** One `for field in REQUIRED_FIELDS[...]` loop. */
  method CheckSection(container: Json, fields: seq<string>) returns (r: Result<seq<string>>)
    ensures r == MissingIn(container, fields)
  {
    var missing: seq<string> := [];
    var i := 0;
    while i < |fields|
      invariant 0 <= i <= |fields|
      invariant MissingIn(container, fields[..i]) == Ok(missing)
    {
      assert fields[..i + 1][..i] == fields[..i];
      var present := PyIn(container, fields[i]);
      if present.Err? {
        MissingInScalar(container, fields);
        return Err(present.error);
      }
      if !present.value {
        missing := missing + [fields[i]];
      }
      i := i + 1;
    }
    assert fields[..i] == fields;
    r := Ok(missing);
  }

  function Tagged(section: Section, fields: seq<string>): seq<MissingField>
  {
    seq(|fields|, i requires 0 <= i < |fields| => MissingField(section, fields[i]))
  }

  /** Every missing field of the three sections, or the first `TypeError`. */
  function AllMissing(data: map<string, Json>): Result<seq<MissingField>>
  {
    match MissingIn(SectionOf(data, Basic), RequiredFields(Basic))
    case Err(e) => Err(e)
    case Ok(b) =>
      match MissingIn(SectionOf(data, Cost), RequiredFields(Cost))
      case Err(e) => Err(e)
      case Ok(c) =>
        match MissingIn(SectionOf(data, UnitStats), RequiredFields(UnitStats))
        case Err(e) => Err(e)
        case Ok(u) => Ok(Tagged(Basic, b) + Tagged(Cost, c) + Tagged(UnitStats, u))
  }

  /**
   * `_validate_data_integrity`: the list of missing fields it warns about, or
   * the error it raises (in dev mode when anything is missing).
   */
  function DataIntegrity(data: map<string, Json>, devMode: bool): Result<seq<MissingField>>
  {
    match AllMissing(data)
    case Err(e) => Err(e)
    case Ok(ms) => if ms != [] && devMode then Err("incomplete data") else Ok(ms)
  }

  method ValidateDataIntegrity(data: map<string, Json>, devMode: bool) returns (r: Result<seq<MissingField>>)
    ensures r == DataIntegrity(data, devMode)
  {
    var b := CheckSection(SectionOf(data, Basic), RequiredFields(Basic));
    if b.Err? {
      return Err(b.error);
    }
    var c := CheckSection(SectionOf(data, Cost), RequiredFields(Cost));
    if c.Err? {
      return Err(c.error);
    }
    var u := CheckSection(SectionOf(data, UnitStats), RequiredFields(UnitStats));
    if u.Err? {
      return Err(u.error);
    }
    var missing := Tagged(Basic, b.value) + Tagged(Cost, c.value) + Tagged(UnitStats, u.value);
    if missing != [] && devMode {
      return Err("incomplete data");
    }
    return Ok(missing);
  }

  /** A field is reported missing exactly when it is required and its container lacks it. */
  lemma {:induction false} MissingInExact(container: Json, fields: seq<string>, f: string)
    requires MissingIn(container, fields).Ok?
    ensures f in MissingIn(container, fields).value <==> f in fields && PyIn(container, f) == Ok(false)
    decreases |fields|
  {
    if fields != [] {
      var init := fields[..|fields| - 1];
      var last := fields[|fields| - 1];
      assert MissingIn(container, init).Ok?;
      MissingInExact(container, init, f);
      var ms := MissingIn(container, init).value;
      var present := PyIn(container, last);
      assert present.Ok?;
      assert MissingIn(container, fields).value == if present.value then ms else ms + [last];
      assert fields == init + [last];
    }
  }

  /** Testing any field of a container `in` cannot search raises `TypeError`. */
  lemma {:induction false} MissingInScalar(container: Json, fields: seq<string>)
    requires fields != [] && PyIn(container, fields[0]).Err?
    ensures MissingIn(container, fields) == Err(PyIn(container, fields[0]).error)
    decreases |fields|
  {
    if |fields| > 1 {
      MissingInScalar(container, fields[..|fields| - 1]);
    }
  }

  /** On a dictionary container `MissingIn` never raises. */
  lemma {:induction false} MissingInObject(m: map<string, Json>, fields: seq<string>)
    ensures MissingIn(JObj(m), fields).Ok?
    decreases |fields|
  {
    if fields != [] {
      MissingInObject(m, fields[..|fields| - 1]);
    }
  }

  /** The report lists exactly the required fields their section lacks. */
  lemma IntegrityReportExact(data: map<string, Json>, section: Section, f: string)
    requires AllMissing(data).Ok?
    ensures MissingField(section, f) in AllMissing(data).value <==>
      f in RequiredFields(section) && PyIn(SectionOf(data, section), f) == Ok(false)
  {
    var b := MissingIn(SectionOf(data, Basic), RequiredFields(Basic)).value;
    var c := MissingIn(SectionOf(data, Cost), RequiredFields(Cost)).value;
    var u := MissingIn(SectionOf(data, UnitStats), RequiredFields(UnitStats)).value;
    MissingInExact(SectionOf(data, section), RequiredFields(section), f);
    TaggedIn(Basic, b, section, f);
    TaggedIn(Cost, c, section, f);
    TaggedIn(UnitStats, u, section, f);
  }

  lemma TaggedIn(s: Section, fs: seq<string>, t: Section, f: string)
    ensures MissingField(t, f) in Tagged(s, fs) <==> s == t && f in fs
  {
    if s == t && f in fs {
      var i :| 0 <= i < |fs| && fs[i] == f;
      assert Tagged(s, fs)[i] == MissingField(t, f);
    }
  }

  /** A record whose sections are dictionaries is checked without error; dev mode then raises iff something is missing. */
  lemma IntegrityRaisesOnlyInDevMode(data: map<string, Json>, devMode: bool)
    requires SectionOf(data, Cost).JObj? && SectionOf(data, UnitStats).JObj?
    ensures AllMissing(data).Ok?
    ensures DataIntegrity(data, devMode).Err? <==> devMode && AllMissing(data).value != []
  {
    MissingInObject(data, RequiredFields(Basic));
    MissingInObject(SectionOf(data, Cost).fields, RequiredFields(Cost));
    MissingInObject(SectionOf(data, UnitStats).fields, RequiredFields(UnitStats));
  }
}

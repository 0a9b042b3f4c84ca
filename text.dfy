/** String helpers shared by the screens and the chat router: lower-casing,
    substring search (String.prototype.includes), decimal rendering, zero
    padding (String.prototype.padStart) and the decimal value of a digit
    string, which undoes the rendering. */
module Text {

  predicate IsUpper(c: char) { 'A' <= c <= 'Z' }

  predicate IsDigit(c: char) { '0' <= c <= '9' }

  predicate AllDigits(s: string) { forall i :: 0 <= i < |s| ==> IsDigit(s[i]) }

  /** Lower-cases one character; only the ASCII letters A-Z change. */
  function LowerChar(c: char): (r: char)
    ensures !IsUpper(r)
    ensures IsUpper(c) ==> r as int == c as int + 32
    ensures !IsUpper(c) ==> r == c
  {
    if IsUpper(c) then (c as int + 32) as char else c
  }

  /** String.prototype.toLowerCase, restricted to ASCII letters. */
  function ToLower(s: string): (r: string)
    ensures |r| == |s|
    ensures forall i :: 0 <= i < |r| ==> !IsUpper(r[i])
    ensures forall i :: 0 <= i < |s| ==>
      (IsUpper(s[i]) ==> r[i] as int == s[i] as int + 32) && (!IsUpper(s[i]) ==> r[i] == s[i])
  {
    seq(|s|, i requires 0 <= i < |s| => LowerChar(s[i]))
  }

  /** Lower-casing twice is lower-casing once. */
  lemma ToLowerIdempotent(s: string)
    ensures ToLower(ToLower(s)) == ToLower(s)
  {
  }

  /** `w` occurs in `s` starting at index `i`. */
  predicate OccursAt(s: string, w: string, i: nat)
  {
    i + |w| <= |s| && s[i..i + |w|] == w
  }

  /** String.prototype.includes: `w` occurs somewhere in `s`. */
  predicate Contains(s: string, w: string)
    ensures Contains(s, w) ==> |w| <= |s|
  {
    exists i :: 0 <= i <= |s| - |w| && OccursAt(s, w, i)
  }

  /** The empty string occurs in every string, so an empty search term matches everything. */
  lemma ContainsEmpty(s: string)
    ensures Contains(s, "")
  {
    assert OccursAt(s, "", 0);
  }

  /** A non-empty word never occurs in the empty string. */
  lemma EmptyContainsNothing(w: string)
    requires w != []
    ensures !Contains("", w)
  {
  }

  /** If `u` occurs inside `w` and `w` occurs inside `s`, then `u` occurs inside `s`. */
  lemma {:induction false} ContainsTransitive(s: string, w: string, u: string)
    requires Contains(s, w) && Contains(w, u)
    ensures Contains(s, u)
  {
    var i :| 0 <= i <= |s| - |w| && OccursAt(s, w, i);
    var j :| 0 <= j <= |w| - |u| && OccursAt(w, u, j);
    forall k | 0 <= k < |u|
      ensures s[i + j + k] == u[k]
    {
      assert u[k] == w[j + k] && w[j + k] == s[i + (j + k)];
    }
    assert OccursAt(s, u, i + j);
  }

  /** The case-insensitive search used by every list screen:
      `field.toLowerCase().includes(term.toLowerCase())`. */
  predicate MatchesSearch(field: string, term: string)
  {
    Contains(ToLower(field), ToLower(term))
  }

  /** An empty search term matches every field. */
  lemma EmptyTermMatches(field: string)
    ensures MatchesSearch(field, "")
  {
    ContainsEmpty(ToLower(field));
  }

  /** The search ignores the case of the term and of the field. */
  lemma MatchesSearchCaseInsensitive(field: string, term: string)
    ensures MatchesSearch(ToLower(field), term) == MatchesSearch(field, term)
    ensures MatchesSearch(field, ToLower(term)) == MatchesSearch(field, term)
  {
    ToLowerIdempotent(field);
    ToLowerIdempotent(term);
  }

  // ---------------------------------------------------------------------
  // Decimal rendering (String(n)) and its inverse

  function DigitChar(d: nat): (c: char)
    requires d < 10
    ensures IsDigit(c) && c as int - '0' as int == d
  {
    ('0' as int + d) as char
  }

  function DigitOf(c: char): (d: nat)
    requires IsDigit(c)
    ensures d < 10 && DigitChar(d) == c
  {
    c as int - '0' as int
  }

  /** String(n) for a non-negative integer: its decimal digits, no leading zeros. */
  function Decimal(n: nat): (r: string)
    ensures 1 <= |r| && AllDigits(r)
    ensures |r| > 1 ==> r[0] != '0'
    decreases n
  {
    if n < 10 then [DigitChar(n)] else Decimal(n / 10) + [DigitChar(n % 10)]
  }

  /** The number a digit string denotes. */
  function DigitsValue(s: string): nat
    requires AllDigits(s)
  {
    if s == [] then 0 else DigitsValue(s[..|s| - 1]) * 10 + DigitOf(s[|s| - 1])
  }

  /** Reading back a rendered number gives the number. */
  lemma {:induction false} DecimalRoundTrip(n: nat)
    ensures DigitsValue(Decimal(n)) == n
    decreases n
  {
    if n >= 10 {
      DecimalRoundTrip(n / 10);
      var r := Decimal(n);
      assert r[..|r| - 1] == Decimal(n / 10);
    }
  }

  function Pow10(k: nat): (p: nat)
    ensures p >= 1
  {
    if k == 0 then 1 else 10 * Pow10(k - 1)
  }

  /** The number of decimal digits is exactly k when 10^(k-1) <= n < 10^k. */
  lemma {:induction false} DecimalLength(n: nat, k: nat)
    requires 1 <= k && (k == 1 || Pow10(k - 1) <= n) && n < Pow10(k)
    ensures |Decimal(n)| == k
    decreases k
  {
    if k > 1 {
      Pow10Grows(k - 1);
      DecimalLength(n / 10, k - 1);
    }
  }

  /** A number below 10^k has at most k digits. */
  lemma {:induction false} DecimalAtMost(n: nat, k: nat)
    requires 1 <= k && n < Pow10(k)
    ensures |Decimal(n)| <= k
    decreases k
  {
    if n >= 10 {
      assert k > 1;
      assert n / 10 < Pow10(k - 1);
      DecimalAtMost(n / 10, k - 1);
    }
  }

  lemma {:induction false} Pow10Grows(k: nat)
    requires k >= 1
    ensures Pow10(k) >= 10
  {
    if k > 1 { Pow10Grows(k - 1); }
  }

  /** `n` copies of `c`. */
  function Repeat(c: char, n: nat): (r: string)
    ensures |r| == n && forall i :: 0 <= i < n ==> r[i] == c
  {
    seq(n, _ => c)
  }

  /** String.prototype.padStart: `fill` added in front until the length is `width`;
      a string already that long is returned as it is. */
  function PadStart(s: string, width: nat, fill: char): (r: string)
    ensures |r| == if |s| < width then width else |s|
    ensures r[|r| - |s|..] == s
    ensures forall i :: 0 <= i < |r| - |s| ==> r[i] == fill
  {
    if |s| < width then Repeat(fill, width - |s|) + s else s
  }

  /** Leading zeros do not change the value of a digit string. */
  lemma {:induction false} LeadingZeroValue(s: string)
    requires AllDigits(s)
    ensures AllDigits("0" + s) && DigitsValue("0" + s) == DigitsValue(s)
    decreases |s|
  {
    if s != [] {
      var init := s[..|s| - 1];
      LeadingZeroValue(init);
      assert ("0" + s)[..|s|] == "0" + init;
    }
  }

  lemma {:induction false} ZeroPaddingValue(s: string, k: nat)
    requires AllDigits(s)
    ensures AllDigits(Repeat('0', k) + s) && DigitsValue(Repeat('0', k) + s) == DigitsValue(s)
    decreases k
  {
    if k > 0 {
      var rest := Repeat('0', k - 1) + s;
      ZeroPaddingValue(s, k - 1);
      assert Repeat('0', k) == "0" + Repeat('0', k - 1);
      assert Repeat('0', k) + s == "0" + rest;
      LeadingZeroValue(rest);
    } else {
      assert Repeat('0', k) + s == s;
    }
  }

  /** Zero-padding a rendered number keeps its digits and its value. */
  lemma PaddedDecimalRoundTrip(n: nat, width: nat)
    ensures AllDigits(PadStart(Decimal(n), width, '0'))
    ensures DigitsValue(PadStart(Decimal(n), width, '0')) == n
  {
    DecimalRoundTrip(n);
    var d := Decimal(n);
    if |d| < width {
      ZeroPaddingValue(d, width - |d|);
    }
  }

  // ---------------------------------------------------------------------
  // The `<` and `>` of JavaScript on two strings

  /** The UTF-16 code units of one character: the character itself below
      U+10000, otherwise a high surrogate followed by a low surrogate. */
  function CharUnits(c: char): (u: seq<int>)
    ensures 1 <= |u| <= 2
    ensures forall k :: 0 <= k < |u| ==> 0 <= u[k] < 0x1_0000
    ensures |u| == 2 <==> 0xD800 <= u[0] < 0xDC00
    ensures |u| == 2 ==> 0xDC00 <= u[1] < 0xE000
  {
    if c as int < 0x1_0000 then [c as int]
    else
      var v := c as int - 0x1_0000;
      [0xD800 + v / 0x400, 0xDC00 + v % 0x400]
  }

  /** A character's code units determine the character. */
  lemma CharUnitsInjective(c: char, d: char)
    requires CharUnits(c) == CharUnits(d)
    ensures c == d
  {
    if c as int >= 0x1_0000 {
      var v, w := c as int - 0x1_0000, d as int - 0x1_0000;
      assert v == 0x400 * (v / 0x400) + v % 0x400;
      assert w == 0x400 * (w / 0x400) + w % 0x400;
    }
  }

  /** The string as JavaScript stores it: the code units of its characters, in order. */
  function CodeUnits(s: string): (u: seq<int>)
    ensures |u| >= |s|
  {
    if s == [] then [] else CharUnits(s[0]) + CodeUnits(s[1..])
  }

  /** Different strings have different code units. */
  lemma {:induction false} CodeUnitsInjective(a: string, b: string)
    requires CodeUnits(a) == CodeUnits(b)
    ensures a == b
    decreases |a|
  {
    if a != [] && b != [] {
      var u, ua, ub := CodeUnits(a), CharUnits(a[0]), CharUnits(b[0]);
      assert |ua| == |ub| by {
        assert u[0] == ua[0] == ub[0];
      }
      assert ua == u[..|ua|] == ub;
      CharUnitsInjective(a[0], b[0]);
      assert CodeUnits(a[1..]) == u[|ua|..] == CodeUnits(b[1..]);
      CodeUnitsInjective(a[1..], b[1..]);
      assert a == [a[0]] + a[1..] && b == [b[0]] + b[1..];
    }
  }

  /** Lexicographic order on code-unit sequences: at the first position where
      they differ, `a` has the smaller unit; or `a` is a proper prefix of `b`. */
  predicate UnitsLess(a: seq<int>, b: seq<int>)
    decreases |a|
  {
    if b == [] then false
    else if a == [] then true
    else if a[0] != b[0] then a[0] < b[0]
    else UnitsLess(a[1..], b[1..])
  }

  /** `a < b` on strings: JavaScript compares the UTF-16 code units, so a
      character above U+FFFF sorts by its high surrogate (0xD800-0xDBFF),
      below the characters U+E000-U+FFFF. */
  predicate StringLess(a: string, b: string)
  {
    UnitsLess(CodeUnits(a), CodeUnits(b))
  }

  lemma {:induction false} UnitsLessIrreflexive(a: seq<int>)
    ensures !UnitsLess(a, a)
    decreases |a|
  {
    if a != [] {
      UnitsLessIrreflexive(a[1..]);
    }
  }

  lemma {:induction false} UnitsLessTrichotomy(a: seq<int>, b: seq<int>)
    ensures a != b <==> (UnitsLess(a, b) || UnitsLess(b, a))
    ensures !(UnitsLess(a, b) && UnitsLess(b, a))
    decreases |a|
  {
    if a == [] || b == [] {
      if a == b { UnitsLessIrreflexive(a); }
    } else if a[0] == b[0] {
      UnitsLessTrichotomy(a[1..], b[1..]);
      assert a == [a[0]] + a[1..] && b == [b[0]] + b[1..];
    }
  }

  lemma {:induction false} UnitsLessTransitive(a: seq<int>, b: seq<int>, c: seq<int>)
    requires UnitsLess(a, b) && UnitsLess(b, c)
    ensures UnitsLess(a, c)
    decreases |a|
  {
    if a != [] && a[0] == b[0] && b[0] == c[0] {
      UnitsLessTransitive(a[1..], b[1..], c[1..]);
    }
  }

  /** No string is less than itself. */
  lemma StringLessIrreflexive(a: string)
    ensures !StringLess(a, a)
  {
    UnitsLessIrreflexive(CodeUnits(a));
  }

  /** Of two different strings, exactly one is less than the other. */
  lemma StringLessTrichotomy(a: string, b: string)
    ensures a != b <==> (StringLess(a, b) || StringLess(b, a))
    ensures !(StringLess(a, b) && StringLess(b, a))
  {
    UnitsLessTrichotomy(CodeUnits(a), CodeUnits(b));
    if CodeUnits(a) == CodeUnits(b) {
      CodeUnitsInjective(a, b);
    }
  }

  /** The string order is transitive. */
  lemma StringLessTransitive(a: string, b: string, c: string)
    requires StringLess(a, b) && StringLess(b, c)
    ensures StringLess(a, c)
  {
    UnitsLessTransitive(CodeUnits(a), CodeUnits(b), CodeUnits(c));
  }

  /** Code units, not code points: U+1F600 is stored as 0xD83D 0xDE00 and so
      sorts before U+FF21, although its code point is larger. */
  lemma SupplementaryBeforeHighBmp()
    ensures StringLess("\U{1F600}", "\U{FF21}")
    ensures !StringLess("\U{FF21}", "\U{1F600}")
  {
    assert CharUnits('\U{1F600}') == [0xD83D, 0xDE00];
    assert CodeUnits("\U{1F600}") == [0xD83D, 0xDE00];
    assert CodeUnits("\U{FF21}") == [0xFF21];
  }
}

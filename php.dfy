/**
 * The PHP string built-ins (and the two Laravel `Str` helpers) that the adapter relies on,
 * written out with the behaviour the adapter observes.  Strings are sequences of characters;
 * case mapping is ASCII-only, as `strtolower`/`strtoupper` are since PHP 8.2.
 */
module Php {
  import Wrappers

  /** PHP truthiness of a string: `""` and `"0"` are the only falsy strings. */
  predicate Truthy(s: string) {
    s != "" && s != "0"
  }

  /** `empty()` on a nullable string. */
  predicate Empty(s: Wrappers.Option<string>) {
    s.None? || !Truthy(s.value)
  }

  // ---------------------------------------------------------------------------------------
  // Case mapping

  function LowerChar(c: char): char {
    if 'A' <= c <= 'Z' then (c as int + 32) as char else c
  }

  function UpperChar(c: char): char {
    if 'a' <= c <= 'z' then (c as int - 32) as char else c
  }

  /** `strtolower`: every ASCII capital becomes its small letter; nothing else changes. */
  function ToLower(s: string): (r: string)
    ensures |r| == |s|
  {
    if s == [] then [] else [LowerChar(s[0])] + ToLower(s[1..])
  }

  lemma {:induction false} ToLowerAt(s: string)
    ensures forall i :: 0 <= i < |s| ==> ToLower(s)[i] == LowerChar(s[i])
  {
    if s != [] {
      ToLowerAt(s[1..]);
    }
  }

  /** `strtoupper`: every ASCII small letter becomes its capital; nothing else changes. */
  function ToUpper(s: string): (r: string)
    ensures |r| == |s|
  {
    if s == [] then [] else [UpperChar(s[0])] + ToUpper(s[1..])
  }

  lemma {:induction false} ToUpperAt(s: string)
    ensures forall i :: 0 <= i < |s| ==> ToUpper(s)[i] == UpperChar(s[i])
  {
    if s != [] {
      ToUpperAt(s[1..]);
    }
  }

  /** Lower-casing a lower-cased string changes nothing. */
  lemma ToLowerIdempotent(s: string)
    ensures ToLower(ToLower(s)) == ToLower(s)
  {
    ToLowerAt(s);
    ToLowerAt(ToLower(s));
    assert forall i :: 0 <= i < |s| ==> LowerChar(LowerChar(s[i])) == LowerChar(s[i]);
  }

  /** `str_replace` of one character by another. */
  function ReplaceChar(s: string, from: char, to: char): (r: string)
    ensures |r| == |s|
  {
    if s == [] then [] else [if s[0] == from then to else s[0]] + ReplaceChar(s[1..], from, to)
  }

  lemma {:induction false} ReplaceCharAt(s: string, from: char, to: char)
    ensures forall i :: 0 <= i < |s| ==> ReplaceChar(s, from, to)[i] == (if s[i] == from then to else s[i])
  {
    if s != [] {
      ReplaceCharAt(s[1..], from, to);
    }
  }

  // ---------------------------------------------------------------------------------------
  // trim

  /** The characters `trim` strips by default: space, tab, newline, carriage return, NUL, vertical tab. */
  predicate IsTrimmable(c: char) {
    c == ' ' || c == '\t' || c == '\n' || c == '\r' || c == '\0' || c == '\U{000B}'
  }

  function TrimStart(s: string): (r: string)
    ensures |r| <= |s| && r == s[|s| - |r|..]
  {
    if s != [] && IsTrimmable(s[0]) then TrimStart(s[1..]) else s
  }

  function TrimEnd(s: string): (r: string)
    ensures |r| <= |s| && r == s[..|r|]
  {
    if s != [] && IsTrimmable(s[|s| - 1]) then TrimEnd(s[..|s| - 1]) else s
  }

  /** `trim`: strip trimmable characters from both ends. */
  function Trim(s: string): (r: string)
    ensures |r| <= |s|
  {
    TrimStart(TrimEnd(s))
  }

  /** `TrimStart` removes only trimmable characters, and stops at the first other one. */
  lemma {:induction false} TrimStartStrips(s: string)
    ensures var r := TrimStart(s);
      (forall i :: 0 <= i < |s| - |r| ==> IsTrimmable(s[i])) && (r != [] ==> !IsTrimmable(r[0]))
  {
    if s != [] && IsTrimmable(s[0]) {
      var t := s[1..];
      TrimStartStrips(t);
      assert TrimStart(s) == TrimStart(t);
      forall i | 1 <= i < |s| - |TrimStart(s)| ensures IsTrimmable(s[i]) {
        assert s[i] == t[i - 1];
      }
    }
  }

  /** `TrimEnd` removes only trimmable characters, and stops at the last other one. */
  lemma {:induction false} TrimEndStrips(s: string)
    ensures var r := TrimEnd(s);
      (forall i :: |r| <= i < |s| ==> IsTrimmable(s[i])) && (r != [] ==> !IsTrimmable(r[|r| - 1]))
  {
    if s != [] && IsTrimmable(s[|s| - 1]) {
      var t := s[..|s| - 1];
      TrimEndStrips(t);
      assert TrimEnd(s) == TrimEnd(t);
      forall i | |TrimEnd(s)| <= i < |t| ensures IsTrimmable(s[i]) {
        assert s[i] == t[i];
      }
    }
  }

  /** The result of `trim` is an infix of `s`. */
  lemma TrimInfix(s: string)
    ensures exists k :: OccursAt(s, Trim(s), k)
  {
    var e := TrimEnd(s);
    var r := TrimStart(e);
    var k := |e| - |r|;
    assert s[k..k + |r|] == e[k..] by {
      assert e == s[..|e|];
    }
    assert Trim(s) == r;
    assert OccursAt(s, r, k);
  }

  /** The result of `trim` neither starts nor ends with a trimmable character. */
  lemma TrimEnds(s: string)
    ensures var r := Trim(s); r != [] ==> !IsTrimmable(r[0]) && !IsTrimmable(r[|r| - 1])
  {
    var e := TrimEnd(s);
    var r := TrimStart(e);
    TrimEndStrips(s);
    TrimStartStrips(e);
    if r != [] {
      assert r[|r| - 1] == e[|e| - 1];
    }
  }

  /** A string that neither starts nor ends with a trimmable character is its own `trim`. */
  lemma TrimFixed(s: string)
    requires s != [] ==> !IsTrimmable(s[0]) && !IsTrimmable(s[|s| - 1])
    ensures Trim(s) == s
  {
    assert TrimEnd(s) == s;
    assert TrimStart(s) == s;
  }

  // ---------------------------------------------------------------------------------------
  // explode / implode

  /** `explode(sep, s)`: the pieces of `s` between occurrences of `sep`; never an empty list. */
  function Explode(sep: char, s: string): (r: seq<string>)
    ensures |r| >= 1
    ensures forall k :: 0 <= k < |r| ==> sep !in r[k]
  {
    if s == [] then [""]
    else
      var rest := Explode(sep, s[1..]);
      if s[0] == sep then [""] + rest else [[s[0]] + rest[0]] + rest[1..]
  }

  /** `implode(sep, xs)`: the pieces joined with `sep` between neighbours. */
  function Implode(sep: char, xs: seq<string>): string {
    if xs == [] then ""
    else if |xs| == 1 then xs[0]
    else xs[0] + [sep] + Implode(sep, xs[1..])
  }

  /** Joining the pieces of `explode` gives back the original string. */
  lemma {:induction false} ImplodeExplode(sep: char, s: string)
    ensures Implode(sep, Explode(sep, s)) == s
  {
    if s != [] {
      var rest := Explode(sep, s[1..]);
      ImplodeExplode(sep, s[1..]);
      if s[0] == sep {
        assert Explode(sep, s) == [""] + rest;
        assert ([""] + rest)[1..] == rest;
      } else {
        var t := [[s[0]] + rest[0]] + rest[1..];
        assert Explode(sep, s) == t;
        if |rest| == 1 {
          assert Implode(sep, rest) == rest[0];
        } else {
          assert t[1..] == rest[1..];
          assert Implode(sep, rest) == rest[0] + [sep] + Implode(sep, rest[1..]);
        }
      }
    }
  }

  /** Splitting a join of separator-free pieces gives back those pieces. */
  lemma {:induction false} ExplodeImplode(sep: char, xs: seq<string>)
    requires |xs| >= 1
    requires forall k :: 0 <= k < |xs| ==> sep !in xs[k]
    ensures Explode(sep, Implode(sep, xs)) == xs
  {
    if |xs| == 1 {
      ExplodeFree(sep, xs[0]);
    } else {
      ExplodeImplode(sep, xs[1..]);
      ExplodeAppend(sep, xs[0], Implode(sep, xs[1..]));
      assert [xs[0]] + xs[1..] == xs;
    }
  }

  /** A string without the separator is a single piece. */
  lemma {:induction false} ExplodeFree(sep: char, s: string)
    requires sep !in s
    ensures Explode(sep, s) == [s]
  {
    if s != [] {
      ExplodeFree(sep, s[1..]);
      assert [s[0]] + s[1..] == s;
    }
  }

  /** `explode` on `a + sep + b`, where `a` holds no separator, starts with `a`. */
  lemma {:induction false} ExplodeAppend(sep: char, a: string, b: string)
    requires sep !in a
    ensures Explode(sep, a + [sep] + b) == [a] + Explode(sep, b)
  {
    if a == [] {
      assert a + [sep] + b == [sep] + b;
      assert ([sep] + b)[1..] == b;
    } else {
      ExplodeAppend(sep, a[1..], b);
      assert (a + [sep] + b)[1..] == a[1..] + [sep] + b;
      assert [a[0]] + a[1..] == a;
    }
  }

  // ---------------------------------------------------------------------------------------
  // Laravel Str::contains and Str::before

  /** `needle` occurs in `haystack` starting at index `k`. */
  predicate OccursAt(haystack: string, needle: string, k: int) {
    0 <= k <= |haystack| - |needle| && haystack[k..k + |needle|] == needle
  }

  /** `Str::contains(haystack, needle)`: false for an empty needle, else whether it occurs. */
  function Contains(haystack: string, needle: string): bool {
    if needle == [] || |haystack| < |needle| then false
    else haystack[..|needle|] == needle || Contains(haystack[1..], needle)
  }

  /** `Contains` holds exactly when the needle is non-empty and occurs somewhere. */
  lemma {:induction false} ContainsOccurs(haystack: string, needle: string)
    ensures Contains(haystack, needle) <==> needle != [] && exists k :: OccursAt(haystack, needle, k)
  {
    if needle != [] && |haystack| >= |needle| {
      if haystack[..|needle|] == needle {
        assert OccursAt(haystack, needle, 0);
      } else {
        ContainsOccurs(haystack[1..], needle);
        if Contains(haystack, needle) {
          var k :| OccursAt(haystack[1..], needle, k);
          assert haystack[1..][k..k + |needle|] == haystack[k + 1..k + 1 + |needle|];
          assert OccursAt(haystack, needle, k + 1);
        } else {
          forall k | OccursAt(haystack, needle, k) ensures false {
            assert k != 0;
            assert haystack[1..][k - 1..k - 1 + |needle|] == haystack[k..k + |needle|];
            assert OccursAt(haystack[1..], needle, k - 1);
          }
        }
      }
    }
  }

  /** `Str::before(s, c)`: the text before the first `c`, or all of `s` when there is none. */
  function Before(s: string, c: char): (r: string)
    ensures |r| <= |s| && r == s[..|r|]
    ensures c !in r
    ensures c in s ==> |r| < |s| && s[|r|] == c
    ensures c !in s ==> r == s
  {
    if s == [] || s[0] == c then [] else [s[0]] + Before(s[1..], c)
  }

  // ---------------------------------------------------------------------------------------
  // Integers as text

  predicate IsDigit(c: char) {
    '0' <= c <= '9'
  }

  predicate AllDigits(s: string) {
    forall i :: 0 <= i < |s| ==> IsDigit(s[i])
  }

  /**
   * `is_numeric`, abstracted to the integer literals the adapter meets: an optional sign
   * followed by at least one decimal digit.
   */
  predicate IsNumeric(s: string) {
    if s != [] && (s[0] == '-' || s[0] == '+') then s[1..] != [] && AllDigits(s[1..])
    else s != [] && AllDigits(s)
  }

  function DigitValue(c: char): nat
    requires IsDigit(c)
  {
    c as int - '0' as int
  }

  function DigitChar(d: nat): (c: char)
    requires d < 10
    ensures IsDigit(c) && DigitValue(c) == d
  {
    ('0' as int + d) as char
  }

  function ParseNat(s: string): nat
    requires AllDigits(s)
  {
    if s == [] then 0 else ParseNat(s[..|s| - 1]) * 10 + DigitValue(s[|s| - 1])
  }

  /** `(int)` of a numeric string. */
  function ParseInt(s: string): int
    requires IsNumeric(s)
  {
    if s[0] == '-' then -(ParseNat(s[1..]) as int)
    else if s[0] == '+' then ParseNat(s[1..])
    else ParseNat(s)
  }

  function NatToString(n: nat): (r: string)
    ensures r != [] && AllDigits(r)
  {
    if n < 10 then [DigitChar(n)] else NatToString(n / 10) + [DigitChar(n % 10)]
  }

  /** `(string)` of an integer: decimal digits, with a leading `-` when negative. */
  function IntToString(i: int): (r: string)
    ensures r != []
  {
    if i < 0 then "-" + NatToString(-i) else NatToString(i)
  }

  lemma {:induction false} ParseNatToString(n: nat)
    ensures ParseNat(NatToString(n)) == n
  {
    if n >= 10 {
      var s := NatToString(n);
      ParseNatToString(n / 10);
      assert s[..|s| - 1] == NatToString(n / 10);
    }
  }

  /** The decimal text of an integer is numeric and reads back as the same integer. */
  lemma IntToStringRoundTrip(i: int)
    ensures IsNumeric(IntToString(i))
    ensures ParseInt(IntToString(i)) == i
  {
    if i < 0 {
      var s := IntToString(i);
      assert s[1..] == NatToString(-i);
      ParseNatToString(-i);
    } else {
      ParseNatToString(i);
      assert IntToString(i)[0] != '-' && IntToString(i)[0] != '+';
    }
  }
}

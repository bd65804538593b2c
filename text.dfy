/**
 * The parts of java.lang.String that the binding engine relies on:
 * `contains`, `startsWith`, `endsWith`, `replace`, `toLowerCase`,
 * `toUpperCase`, `equalsIgnoreCase`, `replaceAll("\\s", "")`, decimal
 * rendering of integers and the "%.2f" / "%.0f" formats.
 *
 * Case mapping covers ASCII and the German umlauts only.
 */
module Text {
  import opened Wrappers

  // ---------------------------------------------------------------------------
  // Searching
  // ---------------------------------------------------------------------------

  /** `sub` occurs in `s` starting at index `i`. */
  predicate StartsAt(s: string, sub: string, i: int)
  {
    0 <= i && i + |sub| <= |s| && s[i..i + |sub|] == sub
  }

  /** Java's `s.contains(sub)`. */
  predicate Contains(s: string, sub: string)
  {
    exists i | 0 <= i <= |s| :: StartsAt(s, sub, i)
  }

  /** Java's `s.startsWith(p)`. */
  predicate StartsWith(s: string, p: string)
  {
    |p| <= |s| && s[..|p|] == p
  }

  /** Java's `s.endsWith(p)`. */
  predicate EndsWith(s: string, p: string)
  {
    |p| <= |s| && s[|s| - |p|..] == p
  }

  /** A string lacking one of the characters of `sub` cannot contain `sub`. */
  lemma MissingCharNotContained(s: string, sub: string, c: char)
    requires c in sub && c !in s
    ensures !Contains(s, sub)
  {
  }

  /** `s` does not contain `sub` when two equal letters of `sub`, at `j1` and
      `j2`, would have to land on two places of `s` that far apart, and the
      places `at` where that letter occurs in `s` hold no such pair. */
  lemma LettersApartNotContained(s: string, sub: string, j1: nat, j2: nat, at: set<int>)
    requires j1 < j2 < |sub| && sub[j1] == sub[j2]
    requires forall p | 0 <= p < |s| && s[p] == sub[j1] :: p in at
    requires forall p, q | p in at && q in at :: q - p != j2 - j1
    ensures !Contains(s, sub)
  {
    if Contains(s, sub) {
      var i :| 0 <= i <= |s| && StartsAt(s, sub, i);
      StartsAtLetters(s, sub, i, j1, j2);
    }
  }

  /** Where `sub` starts at `i`, its letters `j1` and `j2` stand at `i + j1` and `i + j2`. */
  lemma StartsAtLetters(s: string, sub: string, i: int, j1: nat, j2: nat)
    requires StartsAt(s, sub, i) && j1 < |sub| && j2 < |sub|
    ensures s[i + j1] == sub[j1] && s[i + j2] == sub[j2]
  {
    assert s[i..i + |sub|][j1] == sub[j1] && s[i..i + |sub|][j2] == sub[j2];
  }

  /** `s` contains none of `subs` when each of them holds a character,
      given at the same position of `missing`, that `s` lacks. */
  lemma MissingCharsNotContained(s: string, subs: seq<string>, missing: string)
    requires |missing| == |subs|
    requires forall k | 0 <= k < |subs| :: missing[k] in subs[k] && missing[k] !in s
    ensures forall k | 0 <= k < |subs| :: !Contains(s, subs[k])
  {
    forall k | 0 <= k < |subs|
      ensures !Contains(s, subs[k])
    {
      MissingCharNotContained(s, subs[k], missing[k]);
    }
  }

  /** Every character of `s` is one of `letters`. */
  predicate SpelledFrom(s: string, letters: set<char>)
  {
    forall j | 0 <= j < |s| :: s[j] in letters
  }

  /** A string spelled from `letters` contains none of `subs` when each of
      them holds a character, given at the same position of `missing`,
      outside `letters`. */
  lemma OutsideLettersNotContained(s: string, letters: set<char>, subs: seq<string>, missing: string)
    requires SpelledFrom(s, letters) && |missing| == |subs|
    requires forall k | 0 <= k < |subs| :: missing[k] in subs[k] && missing[k] !in letters
    ensures forall k | 0 <= k < |subs| :: !Contains(s, subs[k])
  {
    MissingCharsNotContained(s, subs, missing);
  }

  /** Whatever occurs in `s` also occurs in any string that has `s` inside it. */
  lemma ContainsWithin(s: string, sub: string, pre: string, post: string)
    requires Contains(s, sub)
    ensures Contains(pre + s + post, sub)
  {
    var i :| 0 <= i <= |s| && StartsAt(s, sub, i);
    assert (pre + s + post)[|pre| + i..|pre| + i + |sub|] == s[i..i + |sub|];
    assert StartsAt(pre + s + post, sub, |pre| + i);
  }

  // ---------------------------------------------------------------------------
  // Case mapping (ASCII and ÄÖÜ/äöü/ß)
  // ---------------------------------------------------------------------------

  predicate IsUpperLetter(c: char)
  {
    ('A' <= c <= 'Z') || c == 'Ä' || c == 'Ö' || c == 'Ü'
  }

  predicate IsLowerLetter(c: char)
  {
    ('a' <= c <= 'z') || c == 'ä' || c == 'ö' || c == 'ü' || c == 'ß'
  }

  /** Java's `Character.toLowerCase` on the modelled alphabet. */
  function LowerChar(c: char): (r: char)
    ensures !IsUpperLetter(r)
    ensures !IsUpperLetter(c) ==> r == c
  {
    if 'A' <= c <= 'Z' then (c as int - 'A' as int + 'a' as int) as char
    else if c == 'Ä' then 'ä'
    else if c == 'Ö' then 'ö'
    else if c == 'Ü' then 'ü'
    else c
  }

  /** Java's `Character.toUpperCase` on the modelled alphabet ('ß' has no
      single-character upper case and stays as it is). */
  function UpperChar(c: char): (r: char)
    ensures !IsLowerLetter(c) ==> r == c
  {
    if 'a' <= c <= 'z' then (c as int - 'a' as int + 'A' as int) as char
    else if c == 'ä' then 'Ä'
    else if c == 'ö' then 'Ö'
    else if c == 'ü' then 'Ü'
    else c
  }

  /** Java's `String.toLowerCase`: character by character. */
  function Lower(s: string): (r: string)
    ensures |r| == |s|
    ensures forall i :: 0 <= i < |s| ==> r[i] == LowerChar(s[i])
  {
    seq(|s|, i requires 0 <= i < |s| => LowerChar(s[i]))
  }

  /** Upper case of one character as a string: Java upper-cases 'ß' to "SS". */
  function UpperString(c: char): string
  {
    if c == 'ß' then "SS" else [UpperChar(c)]
  }

  /** Java's `String.toUpperCase`: character by character, except that each
      'ß' becomes "SS". */
  function Upper(s: string): string
    decreases |s|
  {
    if 'ß' !in s then seq(|s|, i requires 0 <= i < |s| => UpperChar(s[i]))
    else UpperString(s[0]) + Upper(s[1..])
  }

  /** No character of `s` is a lower-case letter. */
  predicate NoLowerLetters(s: string)
  {
    forall i :: 0 <= i < |s| ==> !IsLowerLetter(s[i])
  }

  /** No character of `s` is an upper-case letter. */
  predicate NoUpperLetters(s: string)
  {
    forall i :: 0 <= i < |s| ==> !IsUpperLetter(s[i])
  }

  lemma {:induction false} UpperHasNoLowerLetters(s: string)
    ensures NoLowerLetters(Upper(s))
    decreases |s|
  {
    if 'ß' in s {
      UpperHasNoLowerLetters(s[1..]);
      assert NoLowerLetters(UpperString(s[0]));
    }
  }

  lemma UpperOfUpperCase(s: string)
    requires NoLowerLetters(s)
    ensures Upper(s) == s
  {
    assert 'ß' !in s;
  }

  /** Upper-casing twice is upper-casing once. */
  lemma UpperIdempotent(s: string)
    ensures Upper(Upper(s)) == Upper(s)
  {
    UpperHasNoLowerLetters(s);
    UpperOfUpperCase(Upper(s));
  }

  lemma LowerOfLowerCase(s: string)
    requires NoUpperLetters(s)
    ensures Lower(s) == s
  {
  }

  /** Without 'ß', upper-casing maps character by character. */
  lemma UpperCharwise(s: string, u: string)
    requires 'ß' !in s
    requires |u| == |s| && forall i :: 0 <= i < |s| ==> u[i] == UpperChar(s[i])
    ensures Upper(s) == u
  {
  }

  /** Lower-casing keeps the upper case of every character. */
  lemma {:induction false} UpperOfLower(s: string)
    ensures Upper(Lower(s)) == Upper(s)
    decreases |s|
  {
    var l := Lower(s);
    if 'ß' !in s {
      UpperOfLowerWithoutSharpS(s);
    } else {
      assert 'ß' in l by {
        var i :| 0 <= i < |s| && s[i] == 'ß';
        assert l[i] == 'ß';
      }
      UpperOfLower(s[1..]);
      assert l[1..] == Lower(s[1..]);
      UpperOfLowerChar(s[0]);
    }
  }

  lemma UpperOfLowerChar(c: char)
    ensures UpperString(LowerChar(c)) == UpperString(c)
  {
  }

  lemma UpperOfLowerWithoutSharpS(s: string)
    requires 'ß' !in s
    ensures Upper(Lower(s)) == Upper(s)
  {
    var l := Lower(s);
    forall i | 0 <= i < |l| ensures l[i] != 'ß' && UpperChar(l[i]) == UpperChar(s[i]) {
    }
    assert 'ß' !in l;
  }

  /** Lower-casing twice is lower-casing once. */
  lemma LowerIdempotent(s: string)
    ensures Lower(Lower(s)) == Lower(s)
  {
    LowerOfLowerCase(Lower(s));
  }

  /** Strings equal ignoring case have the same upper and lower case, so
      anything computed from either of those cannot tell them apart. */
  lemma {:induction false} EqualsIgnoreCaseSameCase(s: string, t: string)
    requires EqualsIgnoreCase(s, t)
    ensures Upper(s) == Upper(t) && Lower(s) == Lower(t)
    decreases |s|
  {
    assert forall i :: 0 <= i < |s| ==> (s[i] == 'ß' <==> t[i] == 'ß');
    if 'ß' !in s {
      assert 'ß' !in t;
      assert Upper(s) == Upper(t);
    } else {
      assert 'ß' in t by {
        var i :| 0 <= i < |s| && s[i] == 'ß';
        assert t[i] == 'ß';
      }
      assert EqualsIgnoreCase(s[1..], t[1..]);
      EqualsIgnoreCaseSameCase(s[1..], t[1..]);
      if s[0] != 'ß' {
        UpperCharIgnoresCase(s[0], t[0]);
      }
    }
  }

  /** Characters equal ignoring case have the same upper case. */
  lemma UpperCharIgnoresCase(a: char, b: char)
    requires a == b || UpperChar(a) == UpperChar(b) || LowerChar(a) == LowerChar(b)
    ensures UpperChar(a) == UpperChar(b)
  {
  }

  /** Java's `a.equalsIgnoreCase(b)`: same length and, position by position,
      equal characters or characters equal after upper- or lower-casing. */
  predicate EqualsIgnoreCase(a: string, b: string)
  {
    |a| == |b| &&
    forall i :: 0 <= i < |a| ==>
      a[i] == b[i] || UpperChar(a[i]) == UpperChar(b[i]) || LowerChar(a[i]) == LowerChar(b[i])
  }

  // ---------------------------------------------------------------------------
  // Replacing and removing
  // ---------------------------------------------------------------------------

  /** Java's `s.replace(pat, rep)`: every occurrence of `pat`, scanned left to
      right without overlaps, is replaced by `rep`. */
  function ReplaceAll(s: string, pat: string, rep: string): string
    requires |pat| > 0
    decreases |s|
  {
    if |s| < |pat| then s
    else if s[..|pat|] == pat then rep + ReplaceAll(s[|pat|..], pat, rep)
    else [s[0]] + ReplaceAll(s[1..], pat, rep)
  }

  /** Replacing a pattern whose first character does not occur changes nothing. */
  lemma {:induction false} ReplaceAllAbsent(s: string, pat: string, rep: string)
    requires |pat| > 0 && pat[0] !in s
    ensures ReplaceAll(s, pat, rep) == s
  {
    if |s| >= |pat| {
      assert s[..|pat|][0] == s[0];
      ReplaceAllAbsent(s[1..], pat, rep);
      assert s == [s[0]] + s[1..];
    }
  }

  /** Every character of the result comes from the input or from the replacement. */
  lemma {:induction false} ReplaceAllChars(s: string, pat: string, rep: string, c: char)
    requires |pat| > 0
    requires c in ReplaceAll(s, pat, rep)
    ensures c in s || c in rep
  {
    if |s| >= |pat| {
      if s[..|pat|] == pat {
        if c !in rep {
          ReplaceAllChars(s[|pat|..], pat, rep, c);
        }
      } else if c != s[0] {
        ReplaceAllChars(s[1..], pat, rep, c);
      }
    }
  }

  /** Replacing a one-character pattern by text without that character removes it. */
  lemma {:induction false} ReplaceAllRemoves(s: string, pat: string, rep: string)
    requires |pat| == 1 && pat[0] !in rep
    ensures pat[0] !in ReplaceAll(s, pat, rep)
  {
    if |s| >= |pat| {
      ReplaceAllRemoves(if s[..1] == pat then s[1..] else s[1..], pat, rep);
      if s[..1] != pat {
        assert s[0] != pat[0] by { assert s[..1] == [s[0]]; }
      }
    }
  }

  /** Replacing a one-character pattern distributes over concatenation. */
  lemma {:induction false} ReplaceAllOneCharAppend(a: string, b: string, pat: string, rep: string)
    requires |pat| == 1
    ensures ReplaceAll(a + b, pat, rep) == ReplaceAll(a, pat, rep) + ReplaceAll(b, pat, rep)
  {
    if a != [] {
      assert (a + b)[1..] == a[1..] + b;
      assert (a + b)[..1] == a[..1];
      ReplaceAllOneCharAppend(a[1..], b, pat, rep);
    } else {
      assert a + b == b;
    }
  }

  /** Java's `\s`: space, tab, line feed, vertical tab, form feed, carriage return. */
  predicate IsJavaWhitespace(c: char)
  {
    c == ' ' || c == '\t' || c == '\n' || c == '\U{B}' || c == '\U{C}' || c == '\r'
  }

  /** Java's `s.replaceAll("\\s", "")`. */
  function RemoveWhitespace(s: string): (r: string)
    ensures |r| <= |s|
    ensures forall i :: 0 <= i < |r| ==> !IsJavaWhitespace(r[i])
  {
    if s == [] then []
    else (if IsJavaWhitespace(s[0]) then [] else [s[0]]) + RemoveWhitespace(s[1..])
  }

  lemma {:induction false} RemoveWhitespaceKeeps(s: string)
    requires forall i :: 0 <= i < |s| ==> !IsJavaWhitespace(s[i])
    ensures RemoveWhitespace(s) == s
  {
    if s != [] {
      RemoveWhitespaceKeeps(s[1..]);
      assert s == [s[0]] + s[1..];
    }
  }

  lemma {:induction false} RemoveWhitespaceAppend(a: string, b: string)
    ensures RemoveWhitespace(a + b) == RemoveWhitespace(a) + RemoveWhitespace(b)
  {
    if a != [] {
      assert (a + b)[1..] == a[1..] + b;
      RemoveWhitespaceAppend(a[1..], b);
    } else {
      assert a + b == b;
    }
  }

  /** Removing whitespace twice is removing it once. */
  lemma RemoveWhitespaceIdempotent(s: string)
    ensures RemoveWhitespace(RemoveWhitespace(s)) == RemoveWhitespace(s)
  {
    RemoveWhitespaceKeeps(RemoveWhitespace(s));
  }

  /** Java's `String.valueOf(o)` and string concatenation: `null` renders as "null". */
  function NullText(o: Option<string>): (r: string)
    ensures o.Some? ==> r == o.value
    ensures o.None? ==> r == "null"
  {
    if o.Some? then o.value else "null"
  }

  // ---------------------------------------------------------------------------
  // Numbers
  // ---------------------------------------------------------------------------

  predicate IsDigit(c: char)
  {
    '0' <= c <= '9'
  }

  function DigitChar(d: nat): (c: char)
    requires d < 10
    ensures IsDigit(c)
  {
    (d + '0' as int) as char
  }

  /** Java's `String.valueOf(int)` for a non-negative value. */
  function NatToString(n: nat): (r: string)
    ensures |r| > 0
    ensures forall i :: 0 <= i < |r| ==> IsDigit(r[i])
  {
    if n < 10 then [DigitChar(n)] else NatToString(n / 10) + [DigitChar(n % 10)]
  }

  /** Java's `String.valueOf(int)`. */
  function IntToString(n: int): (r: string)
    ensures |r| > 0
  {
    if n < 0 then "-" + NatToString(-n) else NatToString(n)
  }

  /** Different numbers have different decimal renderings. */
  lemma {:induction false} NatToStringInjective(m: nat, n: nat)
    requires NatToString(m) == NatToString(n)
    ensures m == n
  {
    var sm, sn := NatToString(m), NatToString(n);
    if m >= 10 && n >= 10 {
      assert sm[..|sm| - 1] == NatToString(m / 10);
      assert sn[..|sn| - 1] == NatToString(n / 10);
      NatToStringInjective(m / 10, n / 10);
      assert sm[|sm| - 1] == DigitChar(m % 10);
    }
  }

  /** Two-digit rendering with a leading zero, 0 <= d < 100. */
  function TwoDigits(d: nat): (r: string)
    requires d < 100
    ensures |r| == 2
  {
    [DigitChar(d / 10), DigitChar(d % 10)]
  }

  /** Rounds a non-negative real to the nearest integer, halves upwards
      (java.util.Formatter uses RoundingMode.HALF_UP). */
  function RoundHalfUp(x: real): (r: nat)
    requires x >= 0.0
    ensures r as real - 0.5 <= x < r as real + 0.5
  {
    (x + 0.5).Floor
  }

  function UnsignedFixed2(x: real): string
    requires x >= 0.0
  {
    var c := RoundHalfUp(x * 100.0);
    NatToString(c / 100) + "," + TwoDigits(c % 100)
  }

  /**
   * `String.format("%.2f", x).replace(".", ",")`: two fraction digits,
   * a comma as decimal separator, no grouping.
   */
  function FormatFixed2(x: real): string
  {
    if x < 0.0 then "-" + UnsignedFixed2(-x) else UnsignedFixed2(x)
  }

  /** `String.format("%.0f", x)`: rounded to a whole number. */
  function FormatWhole(x: real): string
  {
    if x < 0.0 then "-" + NatToString(RoundHalfUp(-x)) else NatToString(RoundHalfUp(x))
  }

  /** Amounts render with exactly two fraction digits after a comma. */
  lemma FormatFixed2Shape(x: real)
    ensures var r := FormatFixed2(x);
      |r| >= 4 && r[|r| - 3] == ',' && IsDigit(r[|r| - 2]) && IsDigit(r[|r| - 1])
  {
  }
}

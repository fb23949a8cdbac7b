/** The Python string operations the modelled code relies on, written out
    over `string` (a sequence of Unicode scalar values). */
module Text {
  import opened Common

  /** Python's `str.isspace` for one character: the ASCII whitespace and
      separator controls, NEL, NBSP and the Unicode space separators. */
  predicate IsSpace(c: char) {
    || ('\t' <= c <= '\r')            // \t \n \x0b \x0c \r
    || ('\U{1C}' <= c <= '\U{1F}')    // file, group, record and unit separators
    || c == ' ' || c == '\U{85}' || c == '\U{A0}' || c == '\U{1680}'
    || ('\U{2000}' <= c <= '\U{200A}')
    || c == '\U{2028}' || c == '\U{2029}' || c == '\U{202F}' || c == '\U{205F}'
    || c == '\U{3000}'
  }

  /** Every character is whitespace (the empty string included). */
  predicate IsBlank(s: string) {
    forall i :: 0 <= i < |s| ==> IsSpace(s[i])
  }

  function TrimLeft(s: string): (r: string)
    ensures |r| <= |s| && r == s[|s| - |r|..]
    ensures |r| > 0 ==> !IsSpace(r[0])
    ensures IsBlank(s[..|s| - |r|])
  {
    if |s| > 0 && IsSpace(s[0]) then
      var r := TrimLeft(s[1..]);
      assert s[1..][..|s[1..]| - |r|] == s[1..|s| - |r|];
      r
    else s
  }

  function TrimRight(s: string): (r: string)
    ensures |r| <= |s| && r == s[..|r|]
    ensures |r| > 0 ==> !IsSpace(r[|r| - 1])
    ensures IsBlank(s[|r|..])
  {
    if |s| > 0 && IsSpace(s[|s| - 1]) then
      var r := TrimRight(s[..|s| - 1]);
      assert s[..|s| - 1][|r|..] == s[|r|..|s| - 1];
      r
    else s
  }

  /** Python's `str.strip()` with no argument. */
  function Strip(s: string): string {
    TrimRight(TrimLeft(s))
  }

  /** `s.strip()` is empty exactly when `s` is whitespace only: the test
      behind Python's `if not s.strip()`. */
  lemma StripEmptyIffBlank(s: string)
    ensures Strip(s) == "" <==> IsBlank(s)
  {
    var l := TrimLeft(s);
    if Strip(s) == "" {
      // What the left trim keeps starts with a visible character, and the
      // right trim found it blank: so nothing is kept.
      assert l[0..] == l;
      assert IsBlank(l);
      assert |l| == 0;
      assert s[..|s| - |l|] == s;
    } else {
      var r := Strip(s);
      assert !IsSpace(r[0]);
      assert r[0] == l[0] == s[|s| - |l|];
    }
  }

  /** A string that starts with a visible character never strips to "". */
  lemma StripNonBlank(s: string)
    requires |s| > 0 && !IsSpace(s[0])
    ensures Strip(s) != ""
  {
    StripEmptyIffBlank(s);
  }

  /** A string that starts and ends with visible characters strips to
      itself. */
  lemma StripVisibleEnds(s: string)
    requires |s| > 0 && !IsSpace(s[0]) && !IsSpace(s[|s| - 1])
    ensures Strip(s) == s
  {
    assert TrimLeft(s) == s;
  }

  function LowerChar(c: char): char {
    if 'A' <= c <= 'Z' then (c as int + 32) as char else c
  }

  /** `str.lower()` restricted to ASCII letters; other characters are kept. */
  function Lower(s: string): (r: string)
    ensures |r| == |s|
    ensures forall i :: 0 <= i < |s| ==> r[i] == LowerChar(s[i])
  {
    seq(|s|, i requires 0 <= i < |s| => LowerChar(s[i]))
  }

  function UpperChar(c: char): char {
    if 'a' <= c <= 'z' then (c as int - 32) as char else c
  }

  predicate IsCased(c: char) {
    ('a' <= c <= 'z') || ('A' <= c <= 'Z')
  }

  /** `str.title()` on ASCII letters: a letter is upper-cased when the
      character before it is not a letter, lower-cased otherwise. */
  function Title(s: string): (r: string)
    ensures |r| == |s|
  {
    TitleAfter(s, false)
  }

  function TitleAfter(s: string, prevCased: bool): (r: string)
    ensures |r| == |s|
  {
    if s == [] then []
    else
      var c := if prevCased then LowerChar(s[0]) else UpperChar(s[0]);
      [c] + TitleAfter(s[1..], IsCased(s[0]))
  }

  predicate StartsWith(s: string, prefix: string) {
    |prefix| <= |s| && s[..|prefix|] == prefix
  }

  predicate EndsWith(s: string, suffix: string) {
    |suffix| <= |s| && s[|s| - |suffix|..] == suffix
  }

  lemma StartsWithPrefix(a: string, b: string)
    ensures StartsWith(a + b, a)
  {
    assert (a + b)[..|a|] == a;
  }

  /** Python's `sub in s`. */
  predicate Contains(s: string, sub: string)
    decreases |s|
  {
    StartsWith(s, sub) || (|s| > 0 && Contains(s[1..], sub))
  }

  /** `sub` occurs in `s` starting at position `i`. */
  predicate OccursAt(s: string, sub: string, i: int) {
    0 <= i <= |s| - |sub| && s[i..i + |sub|] == sub
  }

  /** A slice of the tail of `s` is the slice of `s` one position on. */
  lemma TailSlice(s: string, i: nat, n: nat)
    requires 1 <= i && i + n <= |s|
    ensures s[1..][i - 1..i - 1 + n] == s[i..i + n]
  {
  }

  /** `sub in s` holds exactly when `sub` occurs at some position of `s`. */
  lemma {:induction false} ContainsAt(s: string, sub: string)
    ensures Contains(s, sub) <==> exists i :: OccursAt(s, sub, i)
  {
    if StartsWith(s, sub) {
      assert OccursAt(s, sub, 0);
    } else if |s| == 0 {
    } else {
      ContainsAt(s[1..], sub);
      if Contains(s[1..], sub) {
        var i :| OccursAt(s[1..], sub, i);
        TailSlice(s, i + 1, |sub|);
        assert OccursAt(s, sub, i + 1);
      } else {
        forall i | OccursAt(s, sub, i) ensures false {
          if i > 0 {
            TailSlice(s, i, |sub|);
            assert OccursAt(s[1..], sub, i - 1);
          }
        }
      }
    }
  }

  /** A string occurs in any text that has it between a prefix and a
      suffix. */
  lemma ContainsMiddle(a: string, b: string, c: string)
    ensures Contains(a + b + c, b)
  {
    assert (a + b + c)[|a|..|a| + |b|] == b;
    assert OccursAt(a + b + c, b, |a|);
    ContainsAt(a + b + c, b);
  }

  /** Text found in `b` is found in any text that has `b` in the middle. */
  lemma ContainsWithin(a: string, b: string, c: string, sub: string)
    requires Contains(b, sub)
    ensures Contains(a + b + c, sub)
  {
    ContainsAt(b, sub);
    var k :| OccursAt(b, sub, k);
    assert (a + b + c)[|a| + k..|a| + k + |sub|] == b[k..k + |sub|];
    assert OccursAt(a + b + c, sub, |a| + k);
    ContainsAt(a + b + c, sub);
  }

  /** Text found in `a` is found in `a + b`. */
  lemma ContainsInPrefix(a: string, b: string, sub: string)
    requires Contains(a, sub)
    ensures Contains(a + b, sub)
  {
    ContainsAt(a, sub);
    var k :| OccursAt(a, sub, k);
    assert (a + b)[k..k + |sub|] == a[k..k + |sub|];
    assert OccursAt(a + b, sub, k);
    ContainsAt(a + b, sub);
  }

  /** A string occurs in any text it ends. */
  lemma ContainsSuffix(a: string, b: string)
    ensures Contains(a + b, b)
  {
    assert (a + b)[|a|..|a| + |b|] == b;
    assert OccursAt(a + b, b, |a|);
    ContainsAt(a + b, b);
  }

  /** Text found in a part of `s` is found in `s`. */
  lemma ContainsTransitive(s: string, mid: string, sub: string)
    requires Contains(s, mid) && Contains(mid, sub)
    ensures Contains(s, sub)
  {
    ContainsAt(s, mid);
    ContainsAt(mid, sub);
    var i :| OccursAt(s, mid, i);
    var k :| OccursAt(mid, sub, k);
    assert s[i..i + |mid|] == mid;
    forall j | 0 <= j < |sub| ensures s[i + k + j] == sub[j] {
      assert mid[k + j] == sub[j];
      assert s[i..i + |mid|][k + j] == s[i + k + j];
    }
    assert s[i + k..i + k + |sub|] == sub;
    assert OccursAt(s, sub, i + k);
    ContainsAt(s, sub);
  }

  /** Python's `str.replace(old, new)` for a non-empty `old`: every
      leftmost, non-overlapping occurrence is replaced. */
  function ReplaceAll(s: string, pat: string, rep: string): string
    requires |pat| > 0
    decreases |s|
  {
    if |s| < |pat| then s
    else if s[..|pat|] == pat then rep + ReplaceAll(s[|pat|..], pat, rep)
    else [s[0]] + ReplaceAll(s[1..], pat, rep)
  }

  /** Replacing one character by another, as `s.replace('_', ' ')`. */
  function ReplaceChar(s: string, from: char, to: char): (r: string)
    ensures |r| == |s|
    ensures forall i :: 0 <= i < |s| ==> r[i] == if s[i] == from then to else s[i]
  {
    seq(|s|, i requires 0 <= i < |s| => if s[i] == from then to else s[i])
  }

  /** Python's `s.split(sep)` for a one-character separator. */
  function Split(s: string, sep: char): (r: seq<string>)
    ensures |r| >= 1
    decreases |s|
  {
    if s == [] then [""]
    else
      var rest := Split(s[1..], sep);
      if s[0] == sep then [""] + rest
      else [[s[0]] + rest[0]] + rest[1..]
  }

  /** Python's `sep.join(parts)`. */
  function Join(sep: string, parts: seq<string>): string
    decreases |parts|
  {
    if |parts| == 0 then ""
    else if |parts| == 1 then parts[0]
    else parts[0] + sep + Join(sep, parts[1..])
  }

  lemma JoinCons(sep: string, head: string, tail: seq<string>)
    requires |tail| >= 1
    ensures Join(sep, [head] + tail) == head + sep + Join(sep, tail)
  {
    assert ([head] + tail)[1..] == tail;
  }

  /** Every part occurs in the joined text. */
  lemma {:induction false} JoinContainsParts(sep: string, parts: seq<string>)
    ensures forall i :: 0 <= i < |parts| ==> Contains(Join(sep, parts), parts[i])
    decreases |parts|
  {
    if |parts| == 1 {
      ContainsMiddle("", parts[0], "");
      assert "" + parts[0] + "" == parts[0];
    } else if |parts| > 1 {
      var rest := Join(sep, parts[1..]);
      JoinContainsParts(sep, parts[1..]);
      forall i | 0 <= i < |parts| ensures Contains(Join(sep, parts), parts[i]) {
        if i == 0 {
          ContainsMiddle("", parts[0], sep + rest);
          assert "" + parts[0] + (sep + rest) == Join(sep, parts);
        } else {
          assert Contains(rest, parts[1..][i - 1]);
          ContainsAt(rest, parts[i]);
          var k :| OccursAt(rest, parts[i], k);
          var pre := parts[0] + sep;
          assert Join(sep, parts) == pre + rest;
          assert (pre + rest)[|pre| + k..|pre| + k + |parts[i]|] == rest[k..k + |parts[i]|];
          assert OccursAt(Join(sep, parts), parts[i], |pre| + k);
          ContainsAt(Join(sep, parts), parts[i]);
        }
      }
    }
  }

  /** Splitting on a character and joining with it gives the text back, and
      no piece holds the separator: the lines of a text are exactly its
      newline-free pieces. */
  lemma {:induction false} SplitJoin(s: string, sep: char)
    ensures Join([sep], Split(s, sep)) == s
    ensures forall k :: 0 <= k < |Split(s, sep)| ==> sep !in Split(s, sep)[k]
  {
    if s != [] {
      var rest := Split(s[1..], sep);
      SplitJoin(s[1..], sep);
      if s[0] == sep {
        JoinCons([sep], "", rest);
        assert s == [s[0]] + s[1..];
      } else {
        var r := Split(s, sep);
        assert r == [[s[0]] + rest[0]] + rest[1..];
        if |rest| == 1 {
          assert Join([sep], r) == [s[0]] + rest[0];
          assert s == [s[0]] + s[1..];
        } else {
          JoinCons([sep], [s[0]] + rest[0], rest[1..]);
          JoinCons([sep], rest[0], rest[1..]);
          assert rest == [rest[0]] + rest[1..];
          assert s == [s[0]] + s[1..];
        }
        forall k | 0 <= k < |r| ensures sep !in r[k] {
          if k > 0 {
            assert r[k] == rest[k];
          } else {
            assert sep !in rest[0];
          }
        }
      }
    }
  }

  /** `c * n` for a one-character string `c`. */
  function Repeat(c: char, n: nat): (r: string)
    ensures |r| == n
    ensures forall i :: 0 <= i < n ==> r[i] == c
  {
    seq(n, _ => c)
  }

  function DigitChar(d: nat): char
    requires d < 10
  {
    ('0' as int + d) as char
  }

  /** `str(n)` for a natural number: decimal digits, no leading zero. */
  function NatToString(n: nat): (r: string)
    ensures |r| >= 1
    ensures forall i :: 0 <= i < |r| ==> '0' <= r[i] <= '9'
    ensures |r| > 1 ==> r[0] != '0'
    decreases n
  {
    if n < 10 then [DigitChar(n)] else NatToString(n / 10) + [DigitChar(n % 10)]
  }

  /** `str(i)` for an integer. */
  function IntToString(i: int): (r: string)
    ensures |r| >= 1
  {
    if i < 0 then "-" + NatToString(-i) else NatToString(i)
  }

  /** The value of a string of decimal digits, underscores skipped. */
  function DigitsValue(s: string): nat
    requires forall i :: 0 <= i < |s| ==> '0' <= s[i] <= '9' || s[i] == '_'
    decreases |s|
  {
    if s == [] then 0
    else if s[|s| - 1] == '_' then DigitsValue(s[..|s| - 1])
    else 10 * DigitsValue(s[..|s| - 1]) + (s[|s| - 1] as int - '0' as int)
  }

  /** The digits of a Python integer literal: ASCII digits, in which a
      single underscore may stand between two digits. */
  predicate IsDigitGroups(s: string) {
    && |s| > 0 && '0' <= s[0] <= '9' && '0' <= s[|s| - 1] <= '9'
    && (forall i :: 0 <= i < |s| ==> '0' <= s[i] <= '9' || s[i] == '_')
    && NoDoubleUnderscore(s)
  }

  /** No two underscores in a row. */
  predicate NoDoubleUnderscore(s: string)
    decreases |s|
  {
    |s| < 2 || (!(s[0] == '_' && s[1] == '_') && NoDoubleUnderscore(s[1..]))
  }

  /** A run of plain digits is a valid literal. */
  lemma {:induction false} DigitsAreGroups(s: string)
    requires |s| > 0 && forall i :: 0 <= i < |s| ==> '0' <= s[i] <= '9'
    ensures IsDigitGroups(s)
    decreases |s|
  {
    if |s| >= 2 {
      DigitsAreGroups(s[1..]);
    }
  }

  /** Python's `int(s)`: surrounding whitespace is stripped, then an
      optional sign and the digits, underscores allowed between digits;
      any other text is a `ValueError`. */
  function ParseInt(s: string): Result<int> {
    ParseLiteral(Strip(s), s)
  }

  /** The literal `t` that `int(s)` reads once `s` is stripped. */
  function ParseLiteral(t: string, s: string): Result<int> {
    if IsDigitGroups(t) then Ok(DigitsValue(t))
    else if |t| > 1 && t[0] == '-' && IsDigitGroups(t[1..]) then Ok(0 - DigitsValue(t[1..]) as int)
    else if |t| > 1 && t[0] == '+' && IsDigitGroups(t[1..]) then Ok(DigitsValue(t[1..]))
    else Err("invalid literal for int() with base 10: '" + s + "'")
  }

  lemma {:induction false} DigitsOfNat(n: nat)
    ensures DigitsValue(NatToString(n)) == n
    decreases n
  {
    if n >= 10 {
      DigitsOfNat(n / 10);
      var s := NatToString(n);
      assert s[..|s| - 1] == NatToString(n / 10);
    }
  }

  lemma {:induction false} ParseNatString(n: nat)
    ensures ParseInt(NatToString(n)) == Ok(n)
  {
    StripVisibleEnds(NatToString(n));
    LiteralOfNat(n, NatToString(n));
  }

  /** A printed natural is a valid unsigned literal of its own value. */
  lemma LiteralOfNat(n: nat, s: string)
    ensures ParseLiteral(NatToString(n), s) == Ok(n)
  {
    DigitsAreGroups(NatToString(n));
    DigitsOfNat(n);
  }

  /** A printed negative integer is a minus sign before a valid literal. */
  lemma LiteralOfNeg(n: nat, s: string)
    requires n > 0
    ensures ParseLiteral("-" + NatToString(n), s) == Ok(0 - n as int)
  {
    var t := NatToString(n);
    var u := "-" + t;
    assert u[1..] == t && u[0] == '-';
    DigitsAreGroups(t);
    DigitsOfNat(n);
  }

  /** A printed integer has no surrounding whitespace. */
  lemma StripIntString(i: int)
    ensures Strip(IntToString(i)) == IntToString(i)
  {
    var s := IntToString(i);
    var t := NatToString(if i < 0 then -i else i);
    assert s[|s| - 1] == t[|t| - 1];
    StripVisibleEnds(s);
  }

  /** A minus sign before a valid literal negates its value. */
  lemma ParseNegative(t: string)
    requires IsDigitGroups(t)
    ensures ParseInt("-" + t) == Ok(0 - DigitsValue(t) as int)
  {
    var u := "-" + t;
    assert u[1..] == t && u[0] == '-' && u[|u| - 1] == t[|t| - 1];
    StripVisibleEnds(u);
  }

  /** `int()` accepts exactly an optionally signed literal once the
      surrounding whitespace is stripped. */
  lemma ParseIntAccepts(s: string)
    ensures var t := Strip(s);
      ParseInt(s).Ok? <==> IsDigitGroups(t) || (|t| > 1 && t[0] in "+-" && IsDigitGroups(t[1..]))
  {
  }

  /** Stripping twice is stripping once. */
  lemma StripIdempotent(s: string)
    ensures Strip(Strip(s)) == Strip(s)
  {
    var r := Strip(s);
    if r != "" {
      assert r == TrimLeft(s)[..|r|];
      StripVisibleEnds(r);
    }
  }

  /** `int()` ignores the whitespace around the number: a padded text
      parses exactly when the stripped one does, to the same value. */
  lemma ParseIntIgnoresPadding(s: string)
    ensures ParseInt(s).Ok? <==> ParseInt(Strip(s)).Ok?
    ensures ParseInt(s).Ok? ==> ParseInt(s).value == ParseInt(Strip(s)).value
  {
    StripIdempotent(s);
  }

  /** An unsigned literal is read as its digits' value. */
  lemma ParseIntOfLiteral(t: string)
    requires IsDigitGroups(t)
    ensures ParseInt(t) == Ok(DigitsValue(t))
  {
    StripVisibleEnds(t);
  }

  predicate DigitsOrUnderscores(s: string) {
    forall i :: 0 <= i < |s| ==> '0' <= s[i] <= '9' || s[i] == '_'
  }

  /** An underscore between digits adds nothing to the value: "1_000"
      reads as "1000". */
  lemma {:induction false} UnderscoreSkipped(a: string, b: string)
    requires DigitsOrUnderscores(a) && DigitsOrUnderscores(b)
    ensures DigitsValue(a + "_" + b) == DigitsValue(a + b)
    decreases |b|
  {
    if b == [] {
      assert (a + "_" + b)[..|a + "_" + b| - 1] == a;
      assert a + b == a;
    } else {
      var init := b[..|b| - 1];
      assert (a + "_" + b)[..|a + "_" + b| - 1] == a + "_" + init;
      assert (a + b)[..|a + b| - 1] == a + init;
      UnderscoreSkipped(a, init);
    }
  }

  /** Printing an integer and reading it back gives the same integer. */
  lemma ParseIntToString(i: int)
    ensures ParseInt(IntToString(i)) == Ok(i)
  {
    StripIntString(i);
    LiteralOfInt(i, IntToString(i));
    ParseStripped(IntToString(i), i);
  }

  /** A printed integer is a valid, optionally negative, literal of its
      own value. */
  lemma LiteralOfInt(i: int, s: string)
    ensures ParseLiteral(IntToString(i), s) == Ok(i)
  {
    if i < 0 {
      LiteralOfNeg(-i, s);
    } else {
      LiteralOfNat(i, s);
    }
  }

  /** A text with nothing to strip is read as the literal it is. */
  lemma ParseStripped(s: string, i: int)
    requires Strip(s) == s && ParseLiteral(s, s) == Ok(i)
    ensures ParseInt(s) == Ok(i)
  {
  }
}

/**
  The string operations the scripts rely on, with Python's meaning:
  `k in s` on strings, `str.lower()`, `str.strip()` / `lstrip` / `rstrip`,
  `sep.join(...)`, `str.split(sep)`, `str.replace`, `str(n)`, `int(s)` and
  `str.isdigit()`. Characters are Unicode scalar values, as Python's `len`
  counts them.
*/
module Text {
  import opened Base

  // ---------------------------------------------------------------------
  // Substring test
  // ---------------------------------------------------------------------

  /** Python's `k in text`: `k` occurs in `text` as a contiguous run. */
  predicate Contains(text: string, k: string)
    decreases |text|
  {
    k <= text || (|text| > 0 && Contains(text[1..], k))
  }

  /** `k` occurs in `text` starting at position `i`. */
  predicate OccursAt(text: string, k: string, i: int)
  {
    0 <= i <= |text| - |k| && text[i..i + |k|] == k
  }

  /** `Contains` agrees with the positional definition of an occurrence. */
  lemma {:induction false} ContainsAt(text: string, k: string)
    ensures Contains(text, k) <==> exists i :: OccursAt(text, k, i)
    decreases |text|
  {
    if k <= text {
      assert OccursAt(text, k, 0);
    }
    if |text| > 0 {
      ContainsAt(text[1..], k);
      if Contains(text[1..], k) {
        var i :| OccursAt(text[1..], k, i);
        assert text[i + 1..i + 1 + |k|] == text[1..][i..i + |k|];
        assert OccursAt(text, k, i + 1);
      }
    }
    if exists i :: OccursAt(text, k, i) {
      var i :| OccursAt(text, k, i);
      if i == 0 {
        assert text[..|k|] == k;
      } else {
        assert text[1..][i - 1..i - 1 + |k|] == text[i..i + |k|];
        assert OccursAt(text[1..], k, i - 1);
      }
    }
  }

  /** An occurrence in `b` is an occurrence in `a + b`. */
  lemma {:induction false} ContainsInSuffix(a: string, b: string, k: string)
    requires Contains(b, k)
    ensures Contains(a + b, k)
    decreases |a|
  {
    if a != [] {
      assert (a + b)[1..] == a[1..] + b;
      ContainsInSuffix(a[1..], b, k);
    } else {
      assert a + b == b;
    }
  }

  /** An occurrence in `a` is an occurrence in `a + b`. */
  lemma {:induction false} ContainsInPrefix(a: string, b: string, k: string)
    requires Contains(a, k)
    ensures Contains(a + b, k)
    decreases |a|
  {
    if k <= a {
      assert k <= a + b;
    } else {
      assert (a + b)[1..] == a[1..] + b;
      ContainsInPrefix(a[1..], b, k);
    }
  }

  /** A needle is never longer than a text it occurs in. */
  lemma {:induction false} ContainsBound(text: string, k: string)
    requires Contains(text, k)
    ensures |k| <= |text|
    decreases |text|
  {
    if !(k <= text) {
      ContainsBound(text[1..], k);
    }
  }

  // ---------------------------------------------------------------------
  // Case
  // ---------------------------------------------------------------------

  predicate IsAsciiUpper(c: char) { 'A' <= c <= 'Z' }

  /** `str.lower()` on one character, for ASCII letters; every other character is kept. */
  function LowerChar(c: char): (r: char)
    ensures !IsAsciiUpper(r)
    ensures !IsAsciiUpper(c) ==> r == c
    ensures IsAsciiUpper(c) ==> r as int == c as int + 32
  {
    if IsAsciiUpper(c) then (c as int + 32) as char else c
  }

  /** `str.lower()`, with ASCII case folding only. */
  function Lower(s: string): (r: string)
    ensures |r| == |s|
    ensures forall i :: 0 <= i < |s| ==> r[i] == LowerChar(s[i])
  {
    seq(|s|, i requires 0 <= i < |s| => LowerChar(s[i]))
  }

  predicate NoAsciiUpper(s: string) { forall i :: 0 <= i < |s| ==> !IsAsciiUpper(s[i]) }

  /** Lowering leaves no upper-case ASCII letter, and lowering twice is lowering once. */
  lemma LowerIdempotent(s: string)
    ensures NoAsciiUpper(Lower(s))
    ensures Lower(Lower(s)) == Lower(s)
  {
  }

  /** A needle without upper-case ASCII that occurs in `text` occurs in `Lower(text)`. */
  lemma {:induction false} ContainsLower(text: string, k: string)
    requires NoAsciiUpper(k) && Contains(text, k)
    ensures Contains(Lower(text), k)
    decreases |text|
  {
    if k <= text {
      assert k <= Lower(text) by {
        forall i | 0 <= i < |k| ensures Lower(text)[i] == k[i] {
          assert text[i] == k[i];
        }
      }
    } else {
      assert Lower(text)[1..] == Lower(text[1..]);
      ContainsLower(text[1..], k);
    }
  }

  /** An occurrence survives lowering both sides: `k in t` implies `k.lower() in t.lower()`. */
  lemma {:induction false} ContainsLowered(text: string, k: string)
    requires Contains(text, k)
    ensures Contains(Lower(text), Lower(k))
    decreases |text|
  {
    if k <= text {
      assert Lower(k) <= Lower(text) by {
        forall i | 0 <= i < |k| ensures Lower(text)[i] == Lower(k)[i] {
          assert text[i] == k[i];
        }
      }
    } else {
      assert Lower(text)[1..] == Lower(text[1..]);
      ContainsLowered(text[1..], k);
    }
  }

  // ---------------------------------------------------------------------
  // Whitespace and stripping
  // ---------------------------------------------------------------------

  /** Python's `str.isspace()` for one character (the characters `str.strip()` removes). */
  predicate IsSpace(c: char)
  {
    ('\t' <= c <= '\r') || ('\U{1C}' <= c <= ' ') || c == '\U{85}' || c == '\U{A0}'
    || c == '\U{1680}' || ('\U{2000}' <= c <= '\U{200A}') || c == '\U{2028}' || c == '\U{2029}'
    || c == '\U{202F}' || c == '\U{205F}' || c == '\U{3000}'
  }

  /** `s.lstrip(chars)`: drop the leading characters for which `strip` holds. */
  function LStrip(s: string, strip: char -> bool): (r: string)
    ensures |r| <= |s|
    ensures r == [] || !strip(r[0])
  {
    if |s| > 0 && strip(s[0]) then LStrip(s[1..], strip) else s
  }

  /** What `LStrip` removes is a prefix of stripped characters. */
  lemma {:induction false} LStripSuffix(s: string, strip: char -> bool)
    ensures var r := LStrip(s, strip);
      r == s[|s| - |r|..] && forall i :: 0 <= i < |s| - |r| ==> strip(s[i])
  {
    if |s| > 0 && strip(s[0]) {
      LStripSuffix(s[1..], strip);
    }
  }

  /** `s.rstrip(chars)`: drop the trailing characters for which `strip` holds. */
  function RStrip(s: string, strip: char -> bool): (r: string)
    ensures |r| <= |s|
    ensures r == [] || !strip(r[|r| - 1])
    ensures r <= s
  {
    if |s| > 0 && strip(s[|s| - 1]) then
      var r := RStrip(s[..|s| - 1], strip);
      assert s[..|s| - 1] <= s;
      r
    else s
  }

  /** What `RStrip` removes is a suffix of stripped characters. */
  lemma {:induction false} RStripPrefix(s: string, strip: char -> bool)
    ensures var r := RStrip(s, strip);
      r == s[..|r|] && forall i :: |r| <= i < |s| ==> strip(s[i])
  {
    if |s| > 0 && strip(s[|s| - 1]) {
      RStripPrefix(s[..|s| - 1], strip);
    }
  }

  /** `str.strip()`: drop leading and trailing whitespace. */
  function Strip(s: string): (r: string)
    ensures |r| <= |s|
    ensures r == [] || (!IsSpace(r[0]) && !IsSpace(r[|r| - 1]))
  {
    RStrip(LStrip(s, IsSpace), IsSpace)
  }

  /** Every character of `Strip(s)` comes from `s`. */
  lemma StripChars(s: string)
    ensures forall i :: 0 <= i < |Strip(s)| ==> Strip(s)[i] in s
  {
    var l := LStrip(s, IsSpace);
    LStripSuffix(s, IsSpace);
    RStripPrefix(l, IsSpace);
    var a := |s| - |l|;
    assert Strip(s) == s[a..a + |Strip(s)|];
  }

  /** A string with no whitespace is its own strip. */
  lemma StripNoSpace(s: string)
    requires forall i :: 0 <= i < |s| ==> !IsSpace(s[i])
    ensures Strip(s) == s
  {
  }

  /** Stripping twice is stripping once. */
  lemma StripIdempotent(s: string)
    ensures Strip(Strip(s)) == Strip(s)
  {
    var r := Strip(s);
    if r != [] {
      assert LStrip(r, IsSpace) == r;
      assert RStrip(r, IsSpace) == r;
    }
  }

  // ---------------------------------------------------------------------
  // Joining, splitting, replacing
  // ---------------------------------------------------------------------

  /** `sep.join(parts)`. */
  function Join(sep: string, parts: seq<string>): (r: string)
    ensures parts == [] ==> r == ""
    ensures |parts| == 1 ==> r == parts[0]
  {
    if parts == [] then ""
    else if |parts| == 1 then parts[0]
    else parts[0] + sep + Join(sep, parts[1..])
  }

  /** `s.split(sep)` for a one-character separator: the pieces between separators. */
  function Split(s: string, sep: char): (r: seq<string>)
    ensures |r| >= 1
    decreases |s|
  {
    if s == [] then [""]
    else
      var rest := Split(s[1..], sep);
      if s[0] == sep then [""] + rest else [[s[0]] + rest[0]] + rest[1..]
  }

  /** No piece of a split holds the separator. */
  lemma {:induction false} SplitPiecesFree(s: string, sep: char)
    ensures forall i :: 0 <= i < |Split(s, sep)| ==> sep !in Split(s, sep)[i]
    decreases |s|
  {
    if s != [] {
      SplitPiecesFree(s[1..], sep);
      var rest := Split(s[1..], sep);
      if s[0] != sep {
        assert sep !in [s[0]] + rest[0];
      }
    }
  }

  /** Joining the pieces of a split with the separator gives back the string. */
  lemma {:induction false} JoinSplit(s: string, sep: char)
    ensures Join([sep], Split(s, sep)) == s
    decreases |s|
  {
    if s != [] {
      var t := s[1..];
      JoinSplit(t, sep);
      assert s == [s[0]] + t;
      if s[0] == sep {
        SplitAtSep(t, sep);
        JoinEmptyHead([sep], Split(t, sep));
      } else {
        SplitAtOther(s[0], t, sep);
        JoinCharHead([sep], s[0], Split(t, sep));
      }
    }
  }

  /** An empty first piece puts the separator in front. */
  lemma JoinEmptyHead(sep: string, rest: seq<string>)
    requires rest != []
    ensures Join(sep, [""] + rest) == sep + Join(sep, rest)
  {
    assert ([""] + rest)[1..] == rest;
  }

  /** A character added to the first piece comes first in the join. */
  lemma JoinCharHead(sep: string, c: char, rest: seq<string>)
    requires rest != []
    ensures Join(sep, [[c] + rest[0]] + rest[1..]) == [c] + Join(sep, rest)
  {
    var parts := [[c] + rest[0]] + rest[1..];
    if |rest| > 1 {
      assert parts[1..] == rest[1..];
      assert ([c] + rest[0]) + sep + Join(sep, rest[1..]) == [c] + (rest[0] + sep + Join(sep, rest[1..]));
    }
  }

  /** A string without the separator splits into itself alone. */
  lemma {:induction false} SplitNoSeparator(s: string, sep: char)
    requires sep !in s
    ensures Split(s, sep) == [s]
    decreases |s|
  {
    if s != [] {
      SplitNoSeparator(s[1..], sep);
      assert [s[0]] + s[1..] == s;
    }
  }

  /** Splitting at a separator splits each side separately. */
  lemma {:induction false} SplitConcat(a: string, b: string, sep: char)
    ensures Split(a + [sep] + b, sep) == Split(a, sep) + Split(b, sep)
    decreases |a|
  {
    if a == [] {
      assert a + [sep] + b == [sep] + b;
      SplitAtSep(b, sep);
    } else {
      var t := a[1..];
      SplitConcat(t, b, sep);
      assert a == [a[0]] + t;
      assert a + [sep] + b == [a[0]] + (t + [sep] + b);
      if a[0] == sep {
        SplitConcatSep(t, b, sep);
      } else {
        SplitConcatOther(a[0], t, b, sep);
      }
    }
  }

  /** A separator in front adds an empty first piece. */
  lemma SplitAtSep(t: string, sep: char)
    ensures Split([sep] + t, sep) == [""] + Split(t, sep)
  {
    assert ([sep] + t)[1..] == t;
  }

  /** Another character in front joins the first piece. */
  lemma SplitAtOther(c: char, t: string, sep: char)
    requires c != sep
    ensures Split([c] + t, sep) == [[c] + Split(t, sep)[0]] + Split(t, sep)[1..]
  {
    assert ([c] + t)[1..] == t;
  }

  lemma SplitConcatSep(t: string, b: string, sep: char)
    requires Split(t + [sep] + b, sep) == Split(t, sep) + Split(b, sep)
    ensures Split([sep] + (t + [sep] + b), sep) == Split([sep] + t, sep) + Split(b, sep)
  {
    SplitAtSep(t + [sep] + b, sep);
    SplitAtSep(t, sep);
    ConsConcat("", Split(t, sep), Split(b, sep));
  }

  lemma SplitConcatOther(c: char, t: string, b: string, sep: char)
    requires c != sep
    requires Split(t + [sep] + b, sep) == Split(t, sep) + Split(b, sep)
    ensures Split([c] + (t + [sep] + b), sep) == Split([c] + t, sep) + Split(b, sep)
  {
    SplitAtOther(c, t + [sep] + b, sep);
    SplitAtOther(c, t, sep);
    var ra, rb := Split(t, sep), Split(b, sep);
    HeadTail(ra, rb);
    ConsConcat([c] + ra[0], ra[1..], rb);
  }

  /** Consing onto a concatenation is consing onto its left part. */
  lemma ConsConcat<T>(h: T, x: seq<T>, y: seq<T>)
    ensures [h] + (x + y) == ([h] + x) + y
  {
  }

  /** The head and tail of a concatenation with a non-empty left part. */
  lemma HeadTail<T>(x: seq<T>, y: seq<T>)
    requires x != []
    ensures (x + y)[0] == x[0] && (x + y)[1..] == x[1..] + y
  {
  }

  /** Every character of a piece of a split comes from the string split. */
  lemma {:induction false} SplitChars(s: string, sep: char, i: nat, c: char)
    requires i < |Split(s, sep)| && c in Split(s, sep)[i]
    ensures c in s
    decreases |s|
  {
    if s != [] {
      var rest := Split(s[1..], sep);
      if s[0] == sep {
        assert Split(s, sep) == [""] + rest;
        if i > 0 {
          assert Split(s, sep)[i] == rest[i - 1];
          SplitChars(s[1..], sep, i - 1, c);
        }
      } else {
        assert Split(s, sep) == [[s[0]] + rest[0]] + rest[1..];
        if i == 0 {
          if c != s[0] {
            assert c in rest[0];
            SplitChars(s[1..], sep, 0, c);
          }
        } else {
          assert Split(s, sep)[i] == rest[i];
          SplitChars(s[1..], sep, i, c);
        }
      }
    }
  }

  /** `s.replace(a, b)` for single characters. */
  function ReplaceChar(s: string, a: char, b: char): (r: string)
    ensures |r| == |s|
    ensures a != b ==> a !in r
    ensures forall i :: 0 <= i < |s| && s[i] != a ==> r[i] == s[i]
  {
    seq(|s|, i requires 0 <= i < |s| => if s[i] == a then b else s[i])
  }

  /** Replacing characters in a concatenation replaces them in each part. */
  lemma ReplaceCharConcat(x: string, c: char, y: string, a: char, b: char)
    ensures ReplaceChar(x + [c] + y, a, b) == ReplaceChar(x, a, b) + [if c == a then b else c] + ReplaceChar(y, a, b)
  {
  }

  /** `s.replace(c, "")`: the string with every `c` removed, other characters in order. */
  function RemoveChar(s: string, c: char): (r: string)
    ensures c !in r
    ensures |r| <= |s|
    ensures c !in s ==> r == s
  {
    if s == [] then []
    else (if s[0] == c then [] else [s[0]]) + RemoveChar(s[1..], c)
  }

  /** `s.startswith(p)`. */
  predicate StartsWith(s: string, p: string) { p <= s }

  // ---------------------------------------------------------------------
  // Integers as text
  // ---------------------------------------------------------------------

  predicate IsDigit(c: char) { '0' <= c <= '9' }

  /** `s.isdigit()`, for ASCII digits: non-empty and every character a digit. */
  predicate IsDigits(s: string) { |s| > 0 && forall i :: 0 <= i < |s| ==> IsDigit(s[i]) }

  function DigitChar(d: nat): (c: char)
    requires d < 10
    ensures IsDigit(c) && c as int - '0' as int == d
  {
    ('0' as int + d) as char
  }

  /** The decimal value of a run of ASCII digits. */
  function DigitsValue(s: string): nat
    requires forall i :: 0 <= i < |s| ==> IsDigit(s[i])
  {
    if s == [] then 0
    else
      assert IsDigit(s[|s| - 1]);
      DigitsValue(s[..|s| - 1]) * 10 + (s[|s| - 1] as int - '0' as int)
  }

  /** `str(n)` for a non-negative integer. */
  function NatToString(n: nat): (r: string)
    ensures IsDigits(r)
    ensures DigitsValue(r) == n
    ensures n > 0 ==> r[0] != '0'
  {
    if n < 10 then [DigitChar(n)]
    else
      var r := NatToString(n / 10) + [DigitChar(n % 10)];
      assert r[..|r| - 1] == NatToString(n / 10);
      r
  }

  /** `str(n)` for any integer. */
  function IntToString(n: int): (r: string)
    ensures |r| > 0
    ensures forall i :: 0 <= i < |r| ==> !IsSpace(r[i])
  {
    if n < 0 then "-" + NatToString(-n) else NatToString(n)
  }

  /** `int(s)` on text: surrounding whitespace, an optional sign, then ASCII digits; anything else fails here, including digits separated by underscores. */
  function ParseInt(s: string): Option<int>
  {
    var t := Strip(s);
    if |t| > 0 && (t[0] == '-' || t[0] == '+') then
      var d := t[1..];
      if IsDigits(d) then
        Some(if t[0] == '-' then -(DigitsValue(d) as int) else DigitsValue(d) as int)
      else None
    else if IsDigits(t) then
      Some(DigitsValue(t))
    else None
  }

  /** `int(x)` guarded by `try: ... except: 0`, with `x = s or 0`: failed parses give 0. */
  function IntOrZero(s: string): int
  {
    match ParseInt(s)
    case Some(v) => v
    case None => 0
  }

  /** Printing an integer and parsing it back gives the same integer. */
  lemma ParseIntToString(n: int)
    ensures ParseInt(IntToString(n)) == Some(n)
  {
    var r := IntToString(n);
    StripNoSpace(r);
    if n < 0 {
      assert r[1..] == NatToString(-n);
    }
  }

  /** The empty cell and text without digits never parse. */
  lemma ParseIntNoDigits(s: string)
    requires forall i :: 0 <= i < |s| ==> !IsDigit(s[i])
    ensures ParseInt(s) == None && IntOrZero(s) == 0
  {
    StripChars(s);
  }

  // ---------------------------------------------------------------------
  // Decimal fractions in hundredths
  // ---------------------------------------------------------------------

  /** The position of the first `c` in `s`. */
  function FindChar(s: string, c: char): (r: Option<nat>)
    ensures r.Some? ==> r.value < |s| && s[r.value] == c && c !in s[..r.value]
    ensures r.None? ==> c !in s
  {
    if s == [] then None
    else if s[0] == c then Some(0)
    else match FindChar(s[1..], c)
      case Some(i) =>
        assert s[..i + 1] == [s[0]] + s[1..][..i];
        Some(i + 1)
      case None => None
  }

  /** Characters that are all ASCII digits; the empty string qualifies. */
  predicate AllDigits(s: string) { forall i :: 0 <= i < |s| ==> IsDigit(s[i]) }

  /** The first two digits of a fraction, in hundredths; further digits are dropped. */
  function FractionHundredths(f: string): (h: nat)
    requires AllDigits(f)
    ensures h < 100
  {
    var d1 := if |f| >= 1 then f[0] as int - '0' as int else 0;
    var d2 := if |f| >= 2 then f[1] as int - '0' as int else 0;
    d1 * 10 + d2
  }

  /**
    `float(s)` times 100, rounded down, for plain decimal text: surrounding
    whitespace, digits, optionally a point and more digits, with a digit on at
    least one side of the point. `None` where `float` raises and for the
    forms left out (a sign, an exponent, "inf", "nan", underscores).
  */
  function Hundredths(s: string): Option<nat>
  {
    DecimalHundredths(Strip(s))
  }

  /** `Hundredths` of text already stripped. */
  function DecimalHundredths(t: string): Option<nat>
  {
    match FindChar(t, '.')
    case None => if IsDigits(t) then Some(DigitsValue(t) * 100) else None
    case Some(k) =>
      var whole, frac := t[..k], t[k + 1..];
      if (whole != [] || frac != []) && AllDigits(whole) && AllDigits(frac) then
        Some(DigitsValue(whole) * 100 + FractionHundredths(frac))
      else None
  }

  /** The empty cell and text without digits are no decimal number. */
  lemma HundredthsNoDigits(s: string)
    requires forall i :: 0 <= i < |s| ==> !IsDigit(s[i])
    ensures Hundredths(s) == None
  {
    StripChars(s);
    var t := Strip(s);
    match FindChar(t, '.')
    case None =>
      assert !IsDigits(t) by {
        if |t| > 0 {
          assert t[0] in s;
        }
      }
    case Some(k) =>
      var whole, frac := t[..k], t[k + 1..];
      if whole != [] {
        assert whole[0] == t[0] && t[0] in s;
        assert !AllDigits(whole);
      } else if frac != [] {
        assert frac[0] == t[k + 1] && t[k + 1] in s;
        assert !AllDigits(frac);
      }
  }

  /**
    `str(c / 100)` for a number of hundredths as Python prints a float with
    at most two decimals: at least one decimal, no trailing zero after it.
  */
  function HundredthsToString(c: nat): (r: string)
  {
    var d1, d2 := (c % 100) / 10, c % 10;
    NatToString(c / 100) + "." + (if d2 == 0 then [DigitChar(d1)] else [DigitChar(d1), DigitChar(d2)])
  }

  /** The first `c` of `a + [c] + b` is the one after `a` when `a` has none. */
  lemma {:induction false} FindCharAfter(a: string, b: string, c: char)
    requires c !in a
    ensures FindChar(a + [c] + b, c) == Some(|a|)
    decreases |a|
  {
    if a != [] {
      assert (a + [c] + b)[1..] == a[1..] + [c] + b;
      FindCharAfter(a[1..], b, c);
    }
  }

  /** The decimals `HundredthsToString` prints, read back. */
  lemma FractionRoundTrip(c: nat)
    ensures var d1, d2 := (c % 100) / 10, c % 10;
      var frac := if d2 == 0 then [DigitChar(d1)] else [DigitChar(d1), DigitChar(d2)];
      AllDigits(frac) && FractionHundredths(frac) == c % 100
  {
  }

  /** The printed form is a digit run, a point and one or two digits: no whitespace, and it parses back. */
  lemma HundredthsText(c: nat)
    ensures DecimalHundredths(HundredthsToString(c)) == Some(c)
  {
    var whole := NatToString(c / 100);
    var d1, d2 := (c % 100) / 10, c % 10;
    var frac := if d2 == 0 then [DigitChar(d1)] else [DigitChar(d1), DigitChar(d2)];
    var r := HundredthsToString(c);
    assert r == whole + "." + frac;
    assert AllDigits(whole) && '.' !in whole by {
      assert forall i :: 0 <= i < |whole| ==> IsDigit(whole[i]);
    }
    FractionRoundTrip(c);
    FindCharAfter(whole, frac, '.');
    assert r[..|whole|] == whole && r[|whole| + 1..] == frac;
  }

  /** The printed form has no whitespace to strip. */
  lemma HundredthsNoSpace(c: nat)
    ensures Strip(HundredthsToString(c)) == HundredthsToString(c)
  {
    var whole := NatToString(c / 100);
    var r := HundredthsToString(c);
    forall i | 0 <= i < |r| ensures !IsSpace(r[i]) {
      if i < |whole| { assert r[i] == whole[i]; }
    }
    StripNoSpace(r);
  }

  /** Printing hundredths and parsing them back gives the same number. */
  lemma HundredthsRoundTrip(c: nat)
    ensures Hundredths(HundredthsToString(c)) == Some(c)
  {
    HundredthsNoSpace(c);
    HundredthsText(c);
  }
}

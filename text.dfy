/**
 * The .NET string operations the marketplace depends on: `String.Split(char)`,
 * `String.Join`, `String.Contains`, `String.IsNullOrWhiteSpace`, and the
 * decimal rendering and parsing of integers (`ToString()`, `int.Parse`).
 */
module Text {
  import opened Wrappers

  /** `s.Split(sep)`: every piece, empty ones included, in order. */
  function Split(s: string, sep: char): (parts: seq<string>)
    ensures |parts| >= 1
    ensures forall i :: 0 <= i < |parts| ==> sep !in parts[i]
    decreases |s|
  {
    if |s| == 0 then [""]
    else
      var rest := Split(s[1..], sep);
      if s[0] == sep then [""] + rest
      else [[s[0]] + rest[0]] + rest[1..]
  }

  /** `String.Join(sep, parts)`. */
  function Join(parts: seq<string>, sep: string): string
    decreases |parts|
  {
    if |parts| == 0 then ""
    else if |parts| == 1 then parts[0]
    else parts[0] + sep + Join(parts[1..], sep)
  }

  /** Splitting then joining gives the string back. */
  lemma {:induction false} JoinSplit(s: string, sep: char)
    ensures Join(Split(s, sep), [sep]) == s
    decreases |s|
  {
    if |s| > 0 {
      JoinSplit(s[1..], sep);
      var rest := Split(s[1..], sep);
      if s[0] == sep {
        assert [""] + rest == [""] + rest[0..1] + rest[1..];
        calc {
          Join([""] + rest, [sep]);
          "" + [sep] + Join(rest, [sep]);
          { assert s == [s[0]] + s[1..]; }
          s;
        }
      } else if |rest| == 1 {
        assert Split(s, sep) == [[s[0]] + rest[0]];
        assert s == [s[0]] + s[1..];
      } else {
        var parts := Split(s, sep);
        assert parts[1..] == rest[1..];
        assert Join(rest, [sep]) == rest[0] + [sep] + Join(rest[1..], [sep]);
        assert s == [s[0]] + s[1..];
      }
    }
  }

  /** A piece without the separator, the separator, then anything: the piece comes off first. */
  lemma {:induction false} SplitAfterPiece(a: string, sep: char, t: string)
    requires sep !in a
    ensures Split(a + [sep] + t, sep) == [a] + Split(t, sep)
    decreases |a|
  {
    if |a| == 0 {
      assert a + [sep] + t == [sep] + t;
      assert ([sep] + t)[1..] == t;
    } else {
      SplitAfterPiece(a[1..], sep, t);
      assert (a + [sep] + t)[1..] == a[1..] + [sep] + t;
      assert [a[0]] + a[1..] == a;
    }
  }

  /** A string without the separator splits into itself alone. */
  lemma {:induction false} SplitNoSeparator(a: string, sep: char)
    requires sep !in a
    ensures Split(a, sep) == [a]
    decreases |a|
  {
    if |a| > 0 {
      SplitNoSeparator(a[1..], sep);
      assert [a[0]] + a[1..] == a;
    }
  }

  /** The round trip of a three-field `a|b|c` reference through `Split`. */
  lemma {:induction false} SplitThree(a: string, b: string, c: string, sep: char)
    requires sep !in a && sep !in b && sep !in c
    ensures Split(a + [sep] + b + [sep] + c, sep) == [a, b, c]
  {
    var t := b + [sep] + c;
    assert a + [sep] + b + [sep] + c == a + [sep] + t;
    SplitNoSeparator(c, sep);
    SplitAfterPiece(b, sep, c);
    assert Split(t, sep) == [b, c];
    SplitAfterPiece(a, sep, t);
  }

  /** Joining pieces that do not contain the separator, then splitting, gives the pieces back. */
  lemma {:induction false} SplitJoin(parts: seq<string>, sep: char)
    requires |parts| >= 1 && forall i :: 0 <= i < |parts| ==> sep !in parts[i]
    ensures Split(Join(parts, [sep]), sep) == parts
    decreases |parts|
  {
    if |parts| == 1 {
      SplitNoSeparator(parts[0], sep);
    } else {
      SplitJoin(parts[1..], sep);
      SplitAfterPiece(parts[0], sep, Join(parts[1..], [sep]));
      assert [parts[0]] + parts[1..] == parts;
    }
  }

  /** `s.Contains(sub)`: `sub` occurs in `s` at some position. */
  predicate Contains(s: string, sub: string)
    decreases |s|
  {
    sub <= s || (|s| > 0 && Contains(s[1..], sub))
  }

  lemma {:induction false} ContainsAt(s: string, sub: string, i: nat)
    requires i + |sub| <= |s| && s[i..i + |sub|] == sub
    ensures Contains(s, sub)
    decreases i
  {
    if i > 0 {
      assert s[1..][i - 1..i - 1 + |sub|] == s[i..i + |sub|];
      ContainsAt(s[1..], sub, i - 1);
    }
  }

  /** `char.IsWhiteSpace` for the separator characters of Unicode categories Zs, Zl, Zp and the control whitespace. */
  predicate IsWhiteSpace(c: char) {
    c == ' ' || ('\t' <= c <= '\r') || c == '\U{85}' || c == '\U{A0}' || c == '\U{1680}'
    || ('\U{2000}' <= c <= '\U{200A}') || c == '\U{2028}' || c == '\U{2029}'
    || c == '\U{202F}' || c == '\U{205F}' || c == '\U{3000}'
  }

  /** `string.IsNullOrWhiteSpace`, with null modelled as the empty string. */
  predicate IsNullOrWhiteSpace(s: string) {
    forall i :: 0 <= i < |s| ==> IsWhiteSpace(s[i])
  }

  predicate IsDigit(c: char) {
    '0' <= c <= '9'
  }

  predicate AllDigits(s: string) {
    forall i :: 0 <= i < |s| ==> IsDigit(s[i])
  }

  function DigitChar(d: int): (c: char)
    requires 0 <= d < 10
    ensures IsDigit(c) && c as int - '0' as int == d
  {
    ('0' as int + d) as char
  }

  /** `n.ToString()` for a non-negative integer: its decimal digits, no leading zeros. */
  function NatToString(n: nat): (s: string)
    ensures |s| >= 1 && AllDigits(s)
    ensures |s| > 1 ==> s[0] != '0'
    decreases n
  {
    if n < 10 then [DigitChar(n)] else NatToString(n / 10) + [DigitChar(n % 10)]
  }

  /** `n.ToString()` for any integer (invariant culture: a leading '-' when negative). */
  function IntToString(n: int): (s: string)
    ensures |s| >= 1 && '|' !in s
  {
    if n < 0 then "-" + NatToString(-n) else NatToString(n)
  }

  /** The value of a string of decimal digits. */
  function DigitsValue(s: string): (v: nat)
    requires AllDigits(s)
    decreases |s|
  {
    if |s| == 0 then 0
    else DigitsValue(s[..|s| - 1]) * 10 + (s[|s| - 1] as int - '0' as int)
  }

  lemma {:induction false} DigitsOfNat(n: nat)
    ensures DigitsValue(NatToString(n)) == n
    decreases n
  {
    if n >= 10 {
      DigitsOfNat(n / 10);
      var s := NatToString(n);
      assert s[..|s| - 1] == NatToString(n / 10);
    }
  }

  const Int32Min: int := -0x8000_0000
  const Int32Max: int := 0x7FFF_FFFF

  /** The white space `int.Parse` skips around the number (`NumberStyles.Integer`): U+0009 to U+000D and U+0020. */
  predicate IsNumberWhite(c: char) {
    c == ' ' || ('\t' <= c <= '\r')
  }

  /** `s` without its leading number white space. */
  function TrimStartWhite(s: string): (t: string)
    ensures |t| <= |s| && t == s[|s| - |t|..]
    ensures |t| > 0 ==> !IsNumberWhite(t[0])
    decreases |s|
  {
    if |s| > 0 && IsNumberWhite(s[0]) then TrimStartWhite(s[1..]) else s
  }

  /** `s` without its trailing number white space. */
  function TrimEndWhite(s: string): (t: string)
    ensures |t| <= |s| && t == s[..|t|]
    ensures |t| > 0 ==> !IsNumberWhite(t[|t| - 1])
    decreases |s|
  {
    if |s| > 0 && IsNumberWhite(s[|s| - 1]) then TrimEndWhite(s[..|s| - 1]) else s
  }

  /** The number `int.Parse` reads once the white space is gone: an optional sign then decimal digits, within 32 bits. */
  function ParseTrimmed(core: string): (r: Option<int>)
    ensures r.Some? ==> Int32Min <= r.value <= Int32Max
  {
    var neg := |core| > 0 && core[0] == '-';
    var digits := if |core| > 0 && (core[0] == '-' || core[0] == '+') then core[1..] else core;
    if |digits| == 0 || !AllDigits(digits) then None
    else
      var magnitude: int := DigitsValue(digits);
      var v := if neg then -magnitude else magnitude;
      if Int32Min <= v <= Int32Max then Some(v) else None
  }

  /**
   * `int.Parse(s)`: optional white space, an optional sign, one or more
   * decimal digits, optional white space, within the 32-bit range. None
   * stands for the FormatException or OverflowException it throws.
   */
  function ParseInt(s: string): (r: Option<int>)
    ensures r.Some? ==> Int32Min <= r.value <= Int32Max
  {
    ParseTrimmed(TrimEndWhite(TrimStartWhite(s)))
  }

  /** Leading white space is dropped up to the first other character. */
  lemma {:induction false} TrimStartPadded(w: string, s: string)
    requires forall i :: 0 <= i < |w| ==> IsNumberWhite(w[i])
    requires |s| > 0 && !IsNumberWhite(s[0])
    ensures TrimStartWhite(w + s) == s
    decreases |w|
  {
    if |w| > 0 {
      assert (w + s)[1..] == w[1..] + s;
      TrimStartPadded(w[1..], s);
    }
  }

  /** Trailing white space is dropped back to the last other character. */
  lemma {:induction false} TrimEndPadded(s: string, w: string)
    requires forall i :: 0 <= i < |w| ==> IsNumberWhite(w[i])
    requires |s| > 0 && !IsNumberWhite(s[|s| - 1])
    ensures TrimEndWhite(s + w) == s
    decreases |w|
  {
    if |w| > 0 {
      assert (s + w)[..|s + w| - 1] == s + w[..|w| - 1];
      TrimEndPadded(s, w[..|w| - 1]);
    }
  }

  /** White space around a number does not change what `int.Parse` reads. */
  lemma ParseIntPadded(before: string, s: string, after: string)
    requires forall i :: 0 <= i < |before| ==> IsNumberWhite(before[i])
    requires forall i :: 0 <= i < |after| ==> IsNumberWhite(after[i])
    requires |s| > 0 && !IsNumberWhite(s[0]) && !IsNumberWhite(s[|s| - 1])
    ensures ParseInt(before + s + after) == ParseInt(s)
  {
    assert before + s + after == before + (s + after);
    TrimStartPadded(before, s + after);
    TrimEndPadded(s, after);
    assert TrimStartWhite(s) == s;
    assert TrimEndWhite(s) == s;
  }

  /** A printed 32-bit integer between two spaces parses back to itself. */
  lemma ParseIntSpaced(n: int)
    requires Int32Min <= n <= Int32Max
    ensures ParseInt(" " + IntToString(n) + " ") == Some(n)
  {
    var s := IntToString(n);
    assert !IsNumberWhite(s[0]) && IsDigit(s[|s| - 1]);
    ParseIntPadded(" ", s, " ");
    ParseIntToString(n);
  }

  /** Rendering then parsing a 32-bit integer gives it back. */
  lemma ParseIntToString(n: int)
    requires Int32Min <= n <= Int32Max
    ensures ParseInt(IntToString(n)) == Some(n)
  {
    var s := IntToString(n);
    assert !IsNumberWhite(s[0]) && IsDigit(s[|s| - 1]);
    ParseIntUnpadded(s);
    ParseTrimmedToString(n);
  }

  /** With no white space around it, `int.Parse` reads the string as it is. */
  lemma ParseIntUnpadded(s: string)
    requires |s| > 0 && !IsNumberWhite(s[0]) && !IsNumberWhite(s[|s| - 1])
    ensures ParseInt(s) == ParseTrimmed(s)
  {
    assert [] + s == s && s + [] == s;
    TrimStartPadded([], s);
    TrimEndPadded(s, []);
  }

  /** The sign-and-digits parse reads a printed 32-bit integer back. */
  lemma ParseTrimmedToString(n: int)
    requires Int32Min <= n <= Int32Max
    ensures ParseTrimmed(IntToString(n)) == Some(n)
  {
    var s := IntToString(n);
    if n < 0 {
      var t := NatToString(-n);
      DigitsOfNat(-n);
      assert s == "-" + t;
      assert s[0] == '-' && s[1..] == t;
    } else {
      DigitsOfNat(n);
      assert s == NatToString(n);
      assert s[0] != '-' && s[0] != '+';
    }
  }
}

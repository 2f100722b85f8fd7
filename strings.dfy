/**
 * The pieces of Python's `str` behaviour that the core relies on:
 * truthiness, `startswith`, `split(sep)`, `sep.join`, `lower()`,
 * `split(None, 1)`, `strip()` and `int()` on decimal text.
 */
module Strings {
  import opened Wrappers

  /** Python truthiness of an optional string: present and not empty. */
  predicate Truthy(s: Option<string>)
  {
    s.Some? && s.value != ""
  }

  predicate StartsWith(s: string, prefix: string)
  {
    |prefix| <= |s| && s[..|prefix|] == prefix
  }

  /** `s.split(sep)` for a one-character separator: never returns an empty list. */
  function Split(s: string, sep: char): (parts: seq<string>)
    ensures |parts| >= 1
    decreases |s|
  {
    if |s| == 0 then [""]
    else
      var rest := Split(s[1..], sep);
      if s[0] == sep then [""] + rest
      else [[s[0]] + rest[0]] + rest[1..]
  }

  /** `sep.join(parts)`: the empty list joins to the empty string. */
  function Join(parts: seq<string>, sep: char): string
  {
    if |parts| == 0 then ""
    else if |parts| == 1 then parts[0]
    else parts[0] + [sep] + Join(parts[1..], sep)
  }

  /** Every piece that `Split` produces is free of the separator. */
  lemma {:induction false} SplitPartsFree(s: string, sep: char)
    ensures forall i :: 0 <= i < |Split(s, sep)| ==> sep !in Split(s, sep)[i]
    decreases |s|
  {
    if |s| > 0 {
      SplitPartsFree(s[1..], sep);
    }
  }

  lemma {:induction false} SplitNoSeparator(s: string, sep: char)
    requires sep !in s
    ensures Split(s, sep) == [s]
    decreases |s|
  {
    if |s| > 0 {
      assert s[0] in s;
      SplitNoSeparator(s[1..], sep);
      assert [s[0]] + s[1..] == s;
    }
  }

  lemma {:induction false} SplitAfterPiece(x: string, sep: char, y: string)
    requires sep !in x
    ensures Split(x + [sep] + y, sep) == [x] + Split(y, sep)
    decreases |x|
  {
    var s := x + [sep] + y;
    if |x| == 0 {
      assert s[1..] == y;
    } else {
      assert s[1..] == x[1..] + [sep] + y;
      SplitAfterPiece(x[1..], sep, y);
      assert [s[0]] + x[1..] == x;
    }
  }

  /** Joining then splitting gives the pieces back when no piece holds the separator. */
  lemma {:induction false} SplitJoin(parts: seq<string>, sep: char)
    requires |parts| >= 1
    requires forall i :: 0 <= i < |parts| ==> sep !in parts[i]
    ensures Split(Join(parts, sep), sep) == parts
    decreases |parts|
  {
    if |parts| == 1 {
      SplitNoSeparator(parts[0], sep);
    } else {
      SplitJoin(parts[1..], sep);
      SplitAfterPiece(parts[0], sep, Join(parts[1..], sep));
      assert [parts[0]] + parts[1..] == parts;
    }
  }

  /** Splitting then joining gives the string back, for every string. */
  lemma {:induction false} JoinSplit(s: string, sep: char)
    ensures Join(Split(s, sep), sep) == s
    decreases |s|
  {
    if |s| > 0 {
      var rest := Split(s[1..], sep);
      JoinSplit(s[1..], sep);
      if s[0] == sep {
        assert ([""] + rest)[1..] == rest;
        assert s == [sep] + s[1..];
      } else {
        var parts := [[s[0]] + rest[0]] + rest[1..];
        if |rest| == 1 {
          assert s == [s[0]] + s[1..];
        } else {
          assert parts[1..] == rest[1..];
          assert Join(rest, sep) == rest[0] + [sep] + Join(rest[1..], sep);
          assert s == [s[0]] + s[1..];
        }
      }
    }
  }

  /** `s.split(c)[0]`: the text before the first `c`, or all of `s`. */
  function BeforeFirst(s: string, c: char): (r: string)
    ensures c !in r
    ensures |r| <= |s| && s[..|r|] == r
    ensures |r| < |s| ==> s[|r|] == c
    decreases |s|
  {
    if |s| == 0 || s[0] == c then "" else [s[0]] + BeforeFirst(s[1..], c)
  }

  lemma {:induction false} BeforeFirstIsFirstPiece(s: string, c: char)
    ensures BeforeFirst(s, c) == Split(s, c)[0]
    decreases |s|
  {
    if |s| > 0 && s[0] != c {
      BeforeFirstIsFirstPiece(s[1..], c);
    }
  }

  /** ASCII upper-case letters map to lower case; everything else is left alone. */
  function LowerChar(c: char): char
  {
    if 'A' <= c <= 'Z' then (c as int + 32) as char else c
  }

  function Lower(s: string): (r: string)
    ensures |r| == |s|
  {
    seq(|s|, i requires 0 <= i < |s| => LowerChar(s[i]))
  }

  /** Python's `str.isspace()`: the characters `split()` and `strip()` treat as white space. */
  predicate IsSpace(c: char)
  {
    var k := c as int;
    k == 0x20 || 0x09 <= k <= 0x0D || 0x1C <= k <= 0x1F || k == 0x85 || k == 0xA0
    || k == 0x1680 || 0x2000 <= k <= 0x200A || k == 0x2028 || k == 0x2029
    || k == 0x202F || k == 0x205F || k == 0x3000
  }

  /** `s.lstrip()`. */
  function TrimStart(s: string): (r: string)
    ensures |r| <= |s|
    ensures |r| > 0 ==> !IsSpace(r[0])
    decreases |s|
  {
    if |s| > 0 && IsSpace(s[0]) then TrimStart(s[1..]) else s
  }

  /** `lstrip` removes white space from the front only: what is left is a suffix. */
  lemma {:induction false} TrimStartIsSuffix(s: string)
    ensures TrimStart(s) == s[|s| - |TrimStart(s)|..]
    ensures forall i :: 0 <= i < |s| - |TrimStart(s)| ==> IsSpace(s[i])
    decreases |s|
  {
    if |s| > 0 && IsSpace(s[0]) {
      TrimStartIsSuffix(s[1..]);
    }
  }

  /** `s.rstrip()`. */
  function TrimEnd(s: string): (r: string)
    ensures |r| <= |s|
    ensures |r| > 0 ==> !IsSpace(r[|r| - 1])
    decreases |s|
  {
    if |s| > 0 && IsSpace(s[|s| - 1]) then TrimEnd(s[..|s| - 1]) else s
  }

  /** `rstrip` removes white space from the back only: what is left is a prefix. */
  lemma {:induction false} TrimEndIsPrefix(s: string)
    ensures TrimEnd(s) == s[..|TrimEnd(s)|]
    ensures forall i :: |TrimEnd(s)| <= i < |s| ==> IsSpace(s[i])
    decreases |s|
  {
    if |s| > 0 && IsSpace(s[|s| - 1]) {
      TrimEndIsPrefix(s[..|s| - 1]);
    }
  }

  /** `s.strip()`. */
  function Strip(s: string): string
  {
    TrimEnd(TrimStart(s))
  }

  /** The leading run of non-space characters. */
  function FirstWord(s: string): (w: string)
    ensures |w| <= |s| && s[..|w|] == w
    ensures forall i :: 0 <= i < |w| ==> !IsSpace(w[i])
    ensures |w| < |s| ==> IsSpace(s[|w|])
    ensures |s| > 0 && !IsSpace(s[0]) ==> |w| > 0
    decreases |s|
  {
    if |s| == 0 || IsSpace(s[0]) then "" else [s[0]] + FirstWord(s[1..])
  }

  /**
   * `s.split(None, 1)`: leading white space is skipped, the first word is cut off,
   * and the rest (after its own leading white space) is kept whole when not empty.
   */
  function SplitOnceOnSpace(s: string): (parts: seq<string>)
    ensures |parts| <= 2
    ensures forall i :: 0 <= i < |parts| ==> |parts[i]| > 0
    ensures |parts| >= 1 ==> forall i :: 0 <= i < |parts[0]| ==> !IsSpace(parts[0][i])
    ensures |parts| == 0 <==> TrimStart(s) == ""
    ensures |parts| >= 1 ==> parts[0] == FirstWord(TrimStart(s))
    ensures |parts| == 2 ==> parts[1] == TrimStart(TrimStart(s)[|parts[0]|..])
  {
    var t := TrimStart(s);
    if |t| == 0 then []
    else
      var word := FirstWord(t);
      var rest := TrimStart(t[|word|..]);
      if |rest| == 0 then [word] else [word, rest]
  }

  predicate IsDigit(c: char)
  {
    '0' <= c <= '9'
  }

  predicate AllDigits(s: string)
  {
    forall i :: 0 <= i < |s| ==> IsDigit(s[i])
  }

  function DigitValue(c: char): nat
    requires IsDigit(c)
  {
    c as int - '0' as int
  }

  /** The value of a string of decimal digits, most significant first. */
  function DigitsValue(s: string): nat
    requires AllDigits(s)
    decreases |s|
  {
    if |s| == 0 then 0 else DigitsValue(s[..|s| - 1]) * 10 + DigitValue(s[|s| - 1])
  }

  /**
   * `int(s)` on text: surrounding white space, an optional sign and at least one
   * ASCII digit; anything else is the `ValueError` case, `None` here.
   */
  function ParseInt(s: string): (r: Option<int>)
    ensures r.Some? ==> Strip(s) != ""
  {
    var t := Strip(s);
    var negative := |t| > 0 && t[0] == '-';
    var body := if |t| > 0 && (t[0] == '-' || t[0] == '+') then t[1..] else t;
    if |body| > 0 && AllDigits(body) then
      Some(if negative then -(DigitsValue(body) as int) else DigitsValue(body))
    else None
  }

  predicate AllSpace(s: string)
  {
    forall i :: 0 <= i < |s| ==> IsSpace(s[i])
  }

  /** The text `int()` accepts once stripped: an optional sign, then at least one digit. */
  predicate SignedDigits(m: string)
  {
    |m| > 0
    && if m[0] == '-' || m[0] == '+' then |m| > 1 && AllDigits(m[1..]) else AllDigits(m)
  }

  /** The value of such text: the digits' value, negated under a minus sign. */
  function SignedDigitsValue(m: string): int
    requires SignedDigits(m)
  {
    if m[0] == '-' then -(DigitsValue(m[1..]) as int)
    else if m[0] == '+' then DigitsValue(m[1..]) as int
    else DigitsValue(m) as int
  }

  lemma {:induction false} TrimStartOfPadded(pad: string, m: string)
    requires AllSpace(pad) && (|m| == 0 || !IsSpace(m[0]))
    ensures TrimStart(pad + m) == m
    decreases |pad|
  {
    if |pad| > 0 {
      assert (pad + m)[1..] == pad[1..] + m;
      TrimStartOfPadded(pad[1..], m);
    } else {
      assert pad + m == m;
    }
  }

  lemma {:induction false} TrimEndOfPadded(m: string, pad: string)
    requires AllSpace(pad) && (|m| == 0 || !IsSpace(m[|m| - 1]))
    ensures TrimEnd(m + pad) == m
    decreases |pad|
  {
    if |pad| > 0 {
      assert (m + pad)[..|m + pad| - 1] == m + pad[..|pad| - 1];
      TrimEndOfPadded(m, pad[..|pad| - 1]);
    } else {
      assert m + pad == m;
    }
  }

  /** `int(pad + m + pad')` for white-space padding and signed digits `m` is the signed value of `m`. */
  lemma ParseIntOfPadded(pad: string, m: string, pad': string)
    requires AllSpace(pad) && AllSpace(pad') && SignedDigits(m)
    ensures ParseInt(pad + m + pad') == Some(SignedDigitsValue(m))
  {
    StripOfPadded(pad, m, pad');
    ParseIntOfStripped(pad + m + pad');
  }

  lemma StripOfPadded(pad: string, m: string, pad': string)
    requires AllSpace(pad) && AllSpace(pad') && SignedDigits(m)
    ensures Strip(pad + m + pad') == m
  {
    assert IsDigit(m[|m| - 1]) by {
      if m[0] == '-' || m[0] == '+' {
        assert m[|m| - 1] == m[1..][|m| - 2];
      }
    }
    TrimStartOfPadded(pad, m + pad');
    assert pad + m + pad' == pad + (m + pad');
    TrimEndOfPadded(m, pad');
  }

  /** `int()` accepts exactly the text that strips to signed digits, and gives their signed value. */
  lemma ParseIntOfStripped(s: string)
    ensures ParseInt(s).Some? <==> SignedDigits(Strip(s))
    ensures ParseInt(s).Some? ==> ParseInt(s).value == SignedDigitsValue(Strip(s))
  {
  }

  /** Everything `int()` accepts is white space, signed digits and white space; the rest is `None`. */
  lemma ParseIntShape(s: string)
    ensures ParseInt(s).Some? ==>
              exists k1, k2 :: 0 <= k1 <= k2 <= |s| && AllSpace(s[..k1]) && AllSpace(s[k2..])
                               && SignedDigits(s[k1..k2])
  {
    ParseIntOfStripped(s);
    if SignedDigits(Strip(s)) {
      StripIsSlice(s, |s| - |TrimStart(s)|, |s| - |TrimStart(s)| + |Strip(s)|);
    }
  }

  /** Stripped text is the slice between leading and trailing white space. */
  lemma StripIsSlice(s: string, k1: int, k2: int)
    requires k1 == |s| - |TrimStart(s)| && k2 == k1 + |Strip(s)|
    ensures 0 <= k1 <= k2 <= |s| && AllSpace(s[..k1]) && AllSpace(s[k2..]) && s[k1..k2] == Strip(s)
  {
    var u := TrimStart(s);
    var t := TrimEnd(u);
    assert s[k1..k2] == t by {
      TrimStartIsSuffix(s);
      TrimEndIsPrefix(u);
    }
    assert AllSpace(s[..k1]) by {
      TrimStartIsSuffix(s);
    }
    assert AllSpace(s[k2..]) by {
      TrimStartIsSuffix(s);
      TrimEndIsPrefix(u);
      forall i | 0 <= i < |s| - k2 ensures IsSpace(s[k2..][i]) {
        assert s[k2..][i] == u[|t| + i];
      }
    }
  }

  function DigitChar(d: nat): (c: char)
    requires d < 10
    ensures IsDigit(c) && DigitValue(c) == d
  {
    ('0' as int + d) as char
  }

  /** `str(n)` for a natural number. */
  function NatToString(n: nat): (s: string)
    ensures |s| >= 1 && AllDigits(s)
    decreases n
  {
    if n < 10 then [DigitChar(n)] else NatToString(n / 10) + [DigitChar(n % 10)]
  }

  lemma {:induction false} NatToStringValue(n: nat)
    ensures DigitsValue(NatToString(n)) == n
    decreases n
  {
    var s := NatToString(n);
    if n >= 10 {
      NatToStringValue(n / 10);
      assert s[..|s| - 1] == NatToString(n / 10);
    }
  }

  lemma TrimOfSpaceFree(s: string)
    requires forall i :: 0 <= i < |s| ==> !IsSpace(s[i])
    ensures TrimStart(s) == s && TrimEnd(s) == s && Strip(s) == s
  {
  }

  /** `int(str(n)) == n` for every natural number. */
  lemma ParseIntOfNat(n: nat)
    ensures ParseInt(NatToString(n)) == Some(n)
  {
    ParseIntOfDigits(NatToString(n));
    NatToStringValue(n);
  }

  /** A non-empty string of ASCII digits parses to its value. */
  lemma ParseIntOfDigits(s: string)
    requires |s| > 0 && AllDigits(s)
    ensures ParseInt(s) == Some(DigitsValue(s) as int)
  {
    assert forall i :: 0 <= i < |s| ==> !IsSpace(s[i]) by {
      forall i | 0 <= i < |s| ensures !IsSpace(s[i]) {
        assert IsDigit(s[i]);
      }
    }
    TrimOfSpaceFree(s);
    assert IsDigit(s[0]);
  }
}

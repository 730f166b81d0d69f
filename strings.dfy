/**
 * The Python `str` operations the pipeline relies on, on `seq<char>`:
 * prefix and substring tests, `str.replace`, `str.strip`, `str.partition`,
 * `str.lower` (for ASCII letters), `str.zfill`, `"".join` and decimal rendering.
 */
module Strings {

  predicate StartsWith(s: string, prefix: string)
  {
    |prefix| <= |s| && s[..|prefix|] == prefix
  }

  predicate EndsWith(s: string, suffix: string)
  {
    |suffix| <= |s| && s[|s| - |suffix|..] == suffix
  }

  /** `sub in s` for strings. */
  predicate Contains(s: string, sub: string)
    decreases |s|
  {
    StartsWith(s, sub) || (|s| > 0 && Contains(s[1..], sub))
  }

  /** A one-character substring occurs exactly when the character does. */
  lemma {:induction false} ContainsChar(s: string, c: char)
    ensures Contains(s, [c]) <==> c in s
    decreases |s|
  {
    if |s| > 0 {
      ContainsChar(s[1..], c);
      assert c in s <==> s[0] == c || c in s[1..];
    }
  }

  /** `s.replace(pat, rep)`: every non-overlapping occurrence, scanning left to right. */
  function ReplaceAll(s: string, pat: string, rep: string): string
    requires pat != []
    decreases |s|
  {
    if |s| < |pat| then s
    else if s[..|pat|] == pat then rep + ReplaceAll(s[|pat|..], pat, rep)
    else [s[0]] + ReplaceAll(s[1..], pat, rep)
  }

  /** `s.replace(c, d)` for single characters: each `c` becomes `d`. */
  function ReplaceChar(s: string, c: char, d: char): (r: string)
    ensures |r| == |s|
    ensures forall i :: 0 <= i < |s| ==> r[i] == if s[i] == c then d else s[i]
  {
    seq(|s|, i requires 0 <= i < |s| => if s[i] == c then d else s[i])
  }

  /** For a one-character pattern, `replace` is the character-wise substitution. */
  lemma {:induction false} ReplaceCharIsReplaceAll(s: string, c: char, d: char)
    ensures ReplaceChar(s, c, d) == ReplaceAll(s, [c], [d])
    decreases |s|
  {
    if |s| >= 1 {
      ReplaceCharIsReplaceAll(s[1..], c, d);
      assert ReplaceChar(s, c, d) == [if s[0] == c then d else s[0]] + ReplaceChar(s[1..], c, d);
    }
  }

  /** A string with no occurrence of `pat` is left unchanged by `replace`. */
  lemma {:induction false} ReplaceAllAbsent(s: string, pat: string, rep: string)
    requires pat != []
    requires !Contains(s, pat)
    ensures ReplaceAll(s, pat, rep) == s
    decreases |s|
  {
    if |s| >= |pat| {
      assert s[..|pat|] != pat;
      ReplaceAllAbsent(s[1..], pat, rep);
    }
  }

  /** Removing a prefix with `replace` yields the rest when the rest holds no further occurrence. */
  lemma ReplaceAllPrefix(pat: string, rest: string)
    requires pat != []
    requires !Contains(rest, pat)
    ensures ReplaceAll(pat + rest, pat, "") == rest
  {
    var s := pat + rest;
    assert s[..|pat|] == pat;
    assert s[|pat|..] == rest;
    ReplaceAllAbsent(rest, pat, "");
  }

  /** `[n.replace(pat, rep) for n in names]`. */
  function ReplaceEach(names: seq<string>, pat: string, rep: string): (r: seq<string>)
    requires pat != []
    ensures |r| == |names| && forall i :: 0 <= i < |names| ==> r[i] == ReplaceAll(names[i], pat, rep)
  {
    seq(|names|, i requires 0 <= i < |names| => ReplaceAll(names[i], pat, rep))
  }

  /** The characters for which Python's `str.isspace()` holds (the `\s` class of `re` on `str`). */
  predicate IsSpace(c: char)
  {
    || ('\t' <= c <= '\r')                  // tab, line feed, vertical tab, form feed, carriage return
    || ('\U{001C}' <= c <= ' ')              // the four information separators and the space
    || c == '\U{0085}' || c == '\U{00A0}' || c == '\U{1680}'
    || ('\U{2000}' <= c <= '\U{200A}')
    || c == '\U{2028}' || c == '\U{2029}' || c == '\U{202F}' || c == '\U{205F}' || c == '\U{3000}'
  }

  /** The number of whitespace characters `s` begins with. */
  function LeadingSpaces(s: string): (k: nat)
    ensures k <= |s| && (k < |s| ==> !IsSpace(s[k]))
    ensures forall i :: 0 <= i < k ==> IsSpace(s[i])
  {
    if |s| > 0 && IsSpace(s[0]) then 1 + LeadingSpaces(s[1..]) else 0
  }

  /** The number of whitespace characters `s` ends with. */
  function TrailingSpaces(s: string): (k: nat)
    ensures k <= |s| && (k < |s| ==> !IsSpace(s[|s| - 1 - k]))
    ensures forall i :: |s| - k <= i < |s| ==> IsSpace(s[i])
  {
    if |s| > 0 && IsSpace(s[|s| - 1]) then 1 + TrailingSpaces(s[..|s| - 1]) else 0
  }

  /** Where `s.strip()` starts in `s`: after the leading whitespace. */
  function StripStart(s: string): nat
  {
    LeadingSpaces(s)
  }

  /** Where `s.strip()` ends in `s`: before the whitespace that ends what follows the leading whitespace. */
  function StripEnd(s: string): (j: nat)
    ensures StripStart(s) <= j <= |s|
  {
    |s| - TrailingSpaces(s[StripStart(s)..])
  }

  /**
   * `s.strip()`: `s` without the whitespace at either end. It is the part of
   * `s` between the leading and the trailing whitespace, and it neither
   * begins nor ends with whitespace.
   */
  function Strip(s: string): (r: string)
    ensures r == [] || (!IsSpace(r[0]) && !IsSpace(r[|r| - 1]))
    ensures |r| <= |s|
    ensures r == s[StripStart(s)..StripEnd(s)]
    ensures forall i :: 0 <= i < StripStart(s) ==> IsSpace(s[i])
    ensures forall i :: StripEnd(s) <= i < |s| ==> IsSpace(s[i])
    decreases |s|
  {
    StripBounds(s);
    if |s| > 0 && IsSpace(s[0]) then StripFront(s); Strip(s[1..])
    else if |s| > 0 && IsSpace(s[|s| - 1]) then StripBack(s); Strip(s[..|s| - 1])
    else s
  }

  /** Outside the stripped range there is only whitespace, and the range neither begins nor ends with it. */
  lemma StripBounds(s: string)
    ensures forall i :: 0 <= i < StripStart(s) ==> IsSpace(s[i])
    ensures forall i :: StripEnd(s) <= i < |s| ==> IsSpace(s[i])
    ensures StripStart(s) < StripEnd(s) ==> !IsSpace(s[StripStart(s)]) && !IsSpace(s[StripEnd(s) - 1])
  {
    var a := StripStart(s);
    var t := s[a..];
    var k := TrailingSpaces(t);
    forall i | |s| - k <= i < |s|
      ensures IsSpace(s[i])
    {
      assert s[i] == t[i - a];
    }
    if a < StripEnd(s) {
      assert s[StripEnd(s) - 1] == t[|t| - 1 - k];
    }
  }

  /** Dropping a leading whitespace character moves the stripped range one place. */
  lemma StripFront(s: string)
    requires |s| > 0 && IsSpace(s[0])
    ensures StripStart(s) == StripStart(s[1..]) + 1 && StripEnd(s) == StripEnd(s[1..]) + 1
    ensures s[StripStart(s)..StripEnd(s)] == s[1..][StripStart(s[1..])..StripEnd(s[1..])]
  {
    assert s[1..][StripStart(s[1..])..] == s[StripStart(s)..];
  }

  /** With no leading whitespace, dropping a trailing whitespace character leaves the stripped range. */
  lemma StripBack(s: string)
    requires |s| > 0 && !IsSpace(s[0]) && IsSpace(s[|s| - 1])
    ensures StripStart(s) == 0 && StripStart(s[..|s| - 1]) == 0 && StripEnd(s) == StripEnd(s[..|s| - 1])
    ensures s[StripStart(s)..StripEnd(s)] == s[..|s| - 1][StripStart(s[..|s| - 1])..StripEnd(s[..|s| - 1])]
  {
    assert s[..|s| - 1][0] == s[0];
    assert s[0..] == s && s[..|s| - 1][0..] == s[..|s| - 1];
  }

  /**
   * Index of the first `x` in `xs`, or `|xs|` when there is none: `str.find`
   * for a character, and `list.index` with the length standing for its
   * `ValueError`.
   */
  function IndexOf<T(==)>(xs: seq<T>, x: T): (i: nat)
    ensures i <= |xs|
    ensures i < |xs| ==> xs[i] == x
    ensures forall j :: 0 <= j < i ==> xs[j] != x
    ensures i == |xs| <==> x !in xs
  {
    if |xs| == 0 then 0 else if xs[0] == x then 0 else 1 + IndexOf(xs[1..], x)
  }

  /** `s.partition(sep)` for a one-character separator: head, whether it was found, tail. */
  function Partition(s: string, sep: char): (r: (string, bool, string))
    ensures r.1 == (sep in s)
    ensures sep !in r.0
    ensures r.1 ==> s == r.0 + [sep] + r.2
    ensures !r.1 ==> r.0 == s && r.2 == []
  {
    var i := IndexOf(s, sep);
    if i < |s| then (s[..i], true, s[i + 1..]) else (s, false, [])
  }

  function LowerChar(c: char): char
  {
    if 'A' <= c <= 'Z' then (c as int + 32) as char else c
  }

  /** `s.lower()` restricted to ASCII letters. */
  function Lower(s: string): (r: string)
    ensures |r| == |s|
    ensures forall i :: 0 <= i < |s| ==> r[i] == LowerChar(s[i])
  {
    seq(|s|, i requires 0 <= i < |s| => LowerChar(s[i]))
  }

  /** `sep.join(parts)`. */
  function Join(parts: seq<string>, sep: string): string
  {
    if |parts| == 0 then ""
    else if |parts| == 1 then parts[0]
    else parts[0] + sep + Join(parts[1..], sep)
  }

  function DigitChar(d: nat): char
    requires d < 10
  {
    "0123456789"[d]
  }

  /** The number a string of decimal digits denotes, most significant digit first. */
  function DigitsValue(s: string): int
  {
    if s == [] then 0 else 10 * DigitsValue(s[..|s| - 1]) + (s[|s| - 1] as int - '0' as int)
  }

  /**
   * `str(n)` for a non-negative integer: the decimal digits of `n`, without
   * leading zeros (only 0 itself is written "0").
   */
  function NatToString(n: nat): (r: string)
    ensures |r| > 0
    ensures forall i :: 0 <= i < |r| ==> '0' <= r[i] <= '9'
    ensures DigitsValue(r) == n
    ensures r[0] == '0' ==> n == 0 && r == "0"
    decreases n
  {
    if n < 10 then [DigitChar(n)]
    else
      var head := NatToString(n / 10);
      var r := head + [DigitChar(n % 10)];
      assert r[..|r| - 1] == head;
      r
  }

  /** `str(i)` for any integer. */
  function IntToString(i: int): string
  {
    if i < 0 then "-" + NatToString(-i) else NatToString(i)
  }

  function Zeros(n: nat): (r: string)
    ensures |r| == n && forall i :: 0 <= i < n ==> r[i] == '0'
  {
    seq(n, _ => '0')
  }

  /**
   * `s.zfill(width)`: pads with '0' on the left up to `width` characters,
   * keeping a leading '+' or '-' in front of the padding.
   */
  function ZFill(s: string, width: int): (r: string)
    ensures |s| >= width ==> r == s
    ensures |s| < width ==> |r| == width
    ensures |s| < width && (s == [] || s[0] !in "+-") ==> r == Zeros(width - |s|) + s
    ensures |s| < width && s != [] && s[0] in "+-" ==> r == [s[0]] + Zeros(width - |s|) + s[1..]
  {
    if |s| >= width then s
    else if |s| > 0 && (s[0] == '+' || s[0] == '-') then [s[0]] + Zeros(width - |s|) + s[1..]
    else Zeros(width - |s|) + s
  }
}

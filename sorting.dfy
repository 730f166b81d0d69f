/**
 * Python's `sorted` as used by the schemas and runners: on `str` values
 * (lexicographic by code point) and on paths (part by part, each part as a
 * `str`). Both are one insertion sort over a total order.
 */
module Sorting {

  /** `a < b` on Python `str`. */
  predicate StrLt(a: string, b: string)
  {
    |b| > 0 && (|a| == 0 || a[0] < b[0] || (a[0] == b[0] && StrLt(a[1..], b[1..])))
  }

  predicate StrLe(a: string, b: string)
  {
    a == b || StrLt(a, b)
  }

  lemma {:induction false} StrLtTrichotomy(a: string, b: string)
    ensures a == b || StrLt(a, b) || StrLt(b, a)
  {
    if |a| > 0 && |b| > 0 && a[0] == b[0] {
      StrLtTrichotomy(a[1..], b[1..]);
      if a[1..] == b[1..] {
        assert a == [a[0]] + a[1..] && b == [b[0]] + b[1..];
      }
    }
  }

  /** `a < b` on paths: the lists of their parts compared lexicographically. */
  predicate PathLt(a: seq<string>, b: seq<string>)
  {
    |b| > 0 && (|a| == 0 || StrLt(a[0], b[0]) || (a[0] == b[0] && PathLt(a[1..], b[1..])))
  }

  predicate PathLe(a: seq<string>, b: seq<string>)
  {
    a == b || PathLt(a, b)
  }

  lemma {:induction false} PathLtTrichotomy(a: seq<string>, b: seq<string>)
    ensures a == b || PathLt(a, b) || PathLt(b, a)
  {
    if |a| > 0 && |b| > 0 {
      StrLtTrichotomy(a[0], b[0]);
      if a[0] == b[0] {
        PathLtTrichotomy(a[1..], b[1..]);
        if a[1..] == b[1..] {
          assert a == [a[0]] + a[1..] && b == [b[0]] + b[1..];
        }
      }
    }
  }

  ghost predicate Total<T(!new)>(le: (T, T) -> bool)
  {
    forall a, b :: le(a, b) || le(b, a)
  }

  predicate SortedBy<T>(s: seq<T>, le: (T, T) -> bool)
  {
    forall i :: 0 < i < |s| ==> le(s[i - 1], s[i])
  }

  function Insert<T(!new)>(x: T, s: seq<T>, le: (T, T) -> bool): (r: seq<T>)
    requires Total(le) && SortedBy(s, le)
    ensures SortedBy(r, le)
    ensures multiset(r) == multiset(s) + multiset{x}
    ensures |r| == |s| + 1
    ensures r[0] == x || (|s| > 0 && r[0] == s[0])
  {
    if |s| == 0 then [x]
    else if le(x, s[0]) then [x] + s
    else
      var rest := Insert(x, s[1..], le);
      assert s == [s[0]] + s[1..];
      [s[0]] + rest
  }

  /** `sorted(s)` for the order `le`: an ordered permutation of `s`. */
  function SortBy<T(!new)>(s: seq<T>, le: (T, T) -> bool): (r: seq<T>)
    requires Total(le)
    ensures SortedBy(r, le)
    ensures multiset(r) == multiset(s)
    ensures |r| == |s|
  {
    if |s| == 0 then []
    else
      assert s == [s[0]] + s[1..];
      Insert(s[0], SortBy(s[1..], le), le)
  }

  /** `sorted(names)` for a list of `str`. */
  function SortStrings(s: seq<string>): (r: seq<string>)
    ensures forall i :: 0 < i < |r| ==> StrLe(r[i - 1], r[i])
    ensures multiset(r) == multiset(s)
  {
    forall a, b ensures StrLe(a, b) || StrLe(b, a) {
      StrLtTrichotomy(a, b);
    }
    SortBy(s, StrLe)
  }

  /** `sorted(paths)` for a list of `Path`. */
  function SortPaths(s: seq<seq<string>>): (r: seq<seq<string>>)
    ensures forall i :: 0 < i < |r| ==> PathLe(r[i - 1], r[i])
    ensures multiset(r) == multiset(s)
  {
    forall a, b ensures PathLe(a, b) || PathLe(b, a) {
      PathLtTrichotomy(a, b);
    }
    SortBy(s, PathLe)
  }
}

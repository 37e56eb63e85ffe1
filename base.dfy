/** Values and library operations the console's TypeScript relies on:
    `undefined`/`null` as Option, `Array.prototype.find`, `filter` and `join`,
    and the string primitives `trim`, `replace(/ +/g, '')` and number-to-string. */
module Base {

  datatype Option<+T> = None | Some(value: T) {
    /** JavaScript's `x || d` on a value that is either absent or truthy */
    function GetOr(default: T): T {
      match this
      case Some(v) => v
      case None => default
    }
  }

  /** `Array.prototype.find`: the first element satisfying `p`, or `undefined`. */
  function Find<T>(s: seq<T>, p: T -> bool): (r: Option<T>)
    ensures r.None? <==> forall i :: 0 <= i < |s| ==> !p(s[i])
    ensures r.Some? ==> exists i :: 0 <= i < |s| && s[i] == r.value && p(s[i]) && forall j :: 0 <= j < i ==> !p(s[j])
  {
    if |s| == 0 then None
    else if p(s[0]) then Some(s[0])
    else
      var r := Find(s[1..], p);
      assert forall j :: 1 <= j < |s| ==> s[j] == s[1..][j - 1];
      r
  }

  /** What `find` returns is pinned down by the first index that satisfies `p`. */
  lemma {:induction false} FindFirst<T>(s: seq<T>, p: T -> bool, i: nat)
    requires i < |s| && p(s[i])
    requires forall j :: 0 <= j < i ==> !p(s[j])
    ensures Find(s, p) == Some(s[i])
  {
    if i > 0 {
      assert forall j :: 0 <= j < i - 1 ==> s[1..][j] == s[j + 1];
      FindFirst(s[1..], p, i - 1);
    }
  }

  /** `Array.prototype.filter`: the elements satisfying `p`, in their original order. */
  function Filter<T>(s: seq<T>, p: T -> bool): (r: seq<T>)
    ensures |r| <= |s|
  {
    if |s| == 0 then []
    else
      var r := Filter(s[..|s| - 1], p);
      if p(s[|s| - 1]) then r + [s[|s| - 1]] else r
  }

  /** What `Filter` keeps: exactly the elements that satisfy `p`. */
  lemma {:induction false} FilterMembers<T>(s: seq<T>, p: T -> bool)
    ensures forall x :: x in Filter(s, p) ==> x in s && p(x)
    ensures forall i :: 0 <= i < |s| && p(s[i]) ==> s[i] in Filter(s, p)
  {
    if |s| > 0 {
      FilterMembers(s[..|s| - 1], p);
      assert forall i :: 0 <= i < |s| - 1 ==> s[..|s| - 1][i] == s[i];
    }
  }

  lemma {:induction false} FilterAppend<T>(a: seq<T>, b: seq<T>, p: T -> bool)
    ensures Filter(a + b, p) == Filter(a, p) + Filter(b, p)
  {
    if |b| > 0 {
      assert (a + b)[..|a + b| - 1] == a + b[..|b| - 1];
      FilterAppend(a, b[..|b| - 1], p);
    } else {
      assert a + b == a;
    }
  }

  /** Filtering keeps everything when everything passes. */
  lemma {:induction false} FilterAllPass<T>(s: seq<T>, p: T -> bool)
    requires forall i :: 0 <= i < |s| ==> p(s[i])
    ensures Filter(s, p) == s
  {
    if |s| > 0 {
      FilterAllPass(s[..|s| - 1], p);
      assert s[..|s| - 1] + [s[|s| - 1]] == s;
    }
  }

  /** Filtering twice by the same predicate is filtering once. */
  lemma FilterIdempotent<T>(s: seq<T>, p: T -> bool)
    ensures Filter(Filter(s, p), p) == Filter(s, p)
  {
    var r := Filter(s, p);
    FilterMembers(s, p);
    assert forall i :: 0 <= i < |r| ==> r[i] in r;
    FilterAllPass(r, p);
  }

  /** `Array.prototype.join(sep)` on strings. */
  function Join(s: seq<string>, sep: string): string
  {
    if |s| == 0 then ""
    else if |s| == 1 then s[0]
    else Join(s[..|s| - 1], sep) + sep + s[|s| - 1]
  }

  /** In `u + [c] + x` with no `c` in `x`, no position after `|u|` holds `c`. */
  lemma NoSeparatorAfter(u: string, x: string, c: char, k: int)
    requires c !in x
    ensures |u| < k < |u| + 1 + |x| ==> (u + [c] + x)[k] != c
  {
    if |u| < k < |u| + 1 + |x| {
      assert (u + [c] + x)[k] == x[k - |u| - 1];
    }
  }

  /** Two strings ending in `[c] + x` and `[c] + y`, where `x` and `y` do not contain
      `c`, are split the same way at their last `c`. */
  lemma LastSeparatorSplit(u: string, x: string, v: string, y: string, c: char)
    requires c !in x && c !in y
    requires u + [c] + x == v + [c] + y
    ensures x == y && u == v
  {
    var w := u + [c] + x;
    assert w[|u|] == c;
    assert (v + [c] + y)[|v|] == c;
    NoSeparatorAfter(u, x, c, |v|);
    NoSeparatorAfter(v, y, c, |u|);
    assert |u| == |v|;
    assert u == w[..|u|];
    assert v == (v + [c] + y)[..|v|];
    assert x == w[|u| + 1..];
    assert y == (v + [c] + y)[|v| + 1..];
  }

  /** Joining with a one-character separator loses nothing when no element contains it:
      two lists of the same length with the same join are the same list. */
  lemma {:induction false} JoinInjective(a: seq<string>, b: seq<string>, c: char)
    requires |a| == |b|
    requires forall i :: 0 <= i < |a| ==> c !in a[i]
    requires forall i :: 0 <= i < |b| ==> c !in b[i]
    requires Join(a, [c]) == Join(b, [c])
    ensures a == b
  {
    if |a| == 1 {
      assert a == [a[0]] && b == [b[0]];
    } else if |a| > 1 {
      var n := |a|;
      LastSeparatorSplit(Join(a[..n - 1], [c]), a[n - 1], Join(b[..n - 1], [c]), b[n - 1], c);
      JoinInjective(a[..n - 1], b[..n - 1], c);
      assert a == a[..n - 1] + [a[n - 1]];
      assert b == b[..n - 1] + [b[n - 1]];
    }
  }

  /** The characters `String.prototype.trim` removes: ECMAScript WhiteSpace and
      LineTerminator (tab to carriage return, space, no-break space, ogham space mark, the
      spaces U+2000 to U+200A, line and paragraph separators, narrow no-break space, medium
      mathematical space, ideographic space and the byte order mark). */
  predicate IsJsWhitespace(c: char)
  {
    var n := c as int;
    (9 <= n <= 13) || n == 0x20 || n == 0xA0 || n == 0x1680 || (0x2000 <= n <= 0x200A)
    || n == 0x2028 || n == 0x2029 || n == 0x202F || n == 0x205F || n == 0x3000 || n == 0xFEFF
  }

  /** `s` without its leading whitespace: a suffix of `s`. */
  function TrimStart(s: string): (r: string)
    ensures |r| <= |s| && r == s[|s| - |r|..]
  {
    if |s| > 0 && IsJsWhitespace(s[0]) then
      var r := TrimStart(s[1..]);
      assert s[1..][|s| - 1 - |r|..] == s[|s| - |r|..];
      r
    else s
  }

  /** `s` without its trailing whitespace: a prefix of `s`. */
  function TrimEnd(s: string): (r: string)
    ensures |r| <= |s| && r == s[..|r|]
  {
    if |s| > 0 && IsJsWhitespace(s[|s| - 1]) then
      var r := TrimEnd(s[..|s| - 1]);
      assert s[..|s| - 1][..|r|] == s[..|r|];
      r
    else s
  }

  /** `TrimStart` cuts whitespace only, and stops at the first other character. */
  lemma {:induction false} TrimStartStops(s: string)
    ensures var r := TrimStart(s);
            (r == [] || !IsJsWhitespace(r[0])) && forall i :: 0 <= i < |s| - |r| ==> IsJsWhitespace(s[i])
  {
    if |s| > 0 && IsJsWhitespace(s[0]) {
      var t := s[1..];
      TrimStartStops(t);
      var r := TrimStart(s);
      assert r == TrimStart(t);
      forall i | 0 <= i < |s| - |r|
        ensures IsJsWhitespace(s[i])
      {
        if i > 0 {
          assert s[i] == t[i - 1];
        }
      }
    }
  }

  /** `TrimEnd` cuts whitespace only, and stops at the last other character. */
  lemma {:induction false} TrimEndStops(s: string)
    ensures var r := TrimEnd(s);
            (r == [] || !IsJsWhitespace(r[|r| - 1])) && forall i :: |r| <= i < |s| ==> IsJsWhitespace(s[i])
  {
    if |s| > 0 && IsJsWhitespace(s[|s| - 1]) {
      TrimEndStops(s[..|s| - 1]);
      assert forall i :: 0 <= i < |s| - 1 ==> s[..|s| - 1][i] == s[i];
    }
  }

  /** `String.prototype.trim` */
  function Trim(s: string): (r: string)
    ensures |r| <= |s|
  {
    TrimEnd(TrimStart(s))
  }

  /** What `trim` returns has no whitespace at either end. */
  lemma TrimEndsClean(s: string)
    ensures var r := Trim(s);
            r == [] || (!IsJsWhitespace(r[0]) && !IsJsWhitespace(r[|r| - 1]))
  {
    var t := TrimStart(s);
    TrimStartStops(s);
    TrimEndStops(t);
    if TrimEnd(t) != [] {
      assert TrimEnd(t)[0] == t[0];
    }
  }

  /** What `trim` returns is the slice of its input that starts after the leading
      whitespace. */
  lemma TrimIsSlice(s: string)
    ensures var i := |s| - |TrimStart(s)|;
            i + |Trim(s)| <= |s| && Trim(s) == s[i..i + |Trim(s)|]
  {
    var t := TrimStart(s);
    var i := |s| - |t|;
    assert TrimEnd(t) == s[i..][..|TrimEnd(t)|];
  }

  predicate NotSpace(c: char)
  {
    c != ' '
  }

  /** `s.replace(/ +/g, '')`: every U+0020 removed, everything else kept in order. */
  function RemoveSpaces(s: string): (r: string)
    ensures |r| <= |s|
  {
    Filter(s, NotSpace)
  }

  /** `name.trim().replace(/ +/g, '')`, the normalisation applied to remote schema names. */
  function NormalizeName(s: string): string
  {
    RemoveSpaces(Trim(s))
  }

  /** Filtering keeps the first element when it passes. */
  lemma {:induction false} FilterKeepsHead<T>(s: seq<T>, p: T -> bool)
    requires |s| > 0 && p(s[0])
    ensures |Filter(s, p)| > 0 && Filter(s, p)[0] == s[0]
  {
    if |s| > 1 {
      assert s[..|s| - 1][0] == s[0];
      FilterKeepsHead(s[..|s| - 1], p);
    }
  }

  /** A string with no whitespace at either end is its own trim. */
  lemma TrimIdentity(r: string)
    requires r == [] || (!IsJsWhitespace(r[0]) && !IsJsWhitespace(r[|r| - 1]))
    ensures Trim(r) == r
  {
    assert TrimStart(r) == r;
    assert TrimEnd(r) == r;
  }

  /** A normalised name has no space, and neither end is whitespace, so it is its own trim. */
  lemma NormalizedNameShape(s: string)
    ensures ' ' !in NormalizeName(s)
    ensures Trim(NormalizeName(s)) == NormalizeName(s)
  {
    var t := Trim(s);
    var r := RemoveSpaces(t);
    assert ' ' !in r by {
      FilterMembers(t, NotSpace);
    }
    assert r == [] || (!IsJsWhitespace(r[0]) && !IsJsWhitespace(r[|r| - 1])) by {
      TrimEndsClean(s);
      if |t| > 0 {
        FilterKeepsHead(t, NotSpace);
        assert r == Filter(t[..|t| - 1], NotSpace) + [t[|t| - 1]];
      }
    }
    TrimIdentity(r);
  }

  function DigitChar(d: nat): char
    requires d < 10
  {
    ('0' as int + d) as char
  }

  /** Decimal text of a natural number, as `Number.prototype.toString` writes it. */
  function NatToString(n: nat): (r: string)
    ensures |r| > 0
    ensures forall i :: 0 <= i < |r| ==> '0' <= r[i] <= '9'
  {
    if n < 10 then [DigitChar(n)] else NatToString(n / 10) + [DigitChar(n % 10)]
  }

  function IntToString(n: int): (r: string)
    ensures |r| > 0
  {
    if n < 0 then "-" + NatToString(-n) else NatToString(n)
  }

  /** Decimal digits back to a number: the inverse of `NatToString`. */
  function DigitsValue(s: string): int
  {
    if |s| == 0 then 0 else DigitsValue(s[..|s| - 1]) * 10 + (s[|s| - 1] as int - '0' as int)
  }

  lemma {:induction false} NatToStringRoundTrip(n: nat)
    ensures DigitsValue(NatToString(n)) == n
  {
    if n >= 10 {
      NatToStringRoundTrip(n / 10);
      var r := NatToString(n);
      assert r[..|r| - 1] == NatToString(n / 10);
      assert r[|r| - 1] as int - '0' as int == n % 10;
    }
  }
}
